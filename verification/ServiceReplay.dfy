/** Paired replay, one-shot and resumable: the same verdict however often the
    resumable one is interrupted. The runner is a deterministic function of the
    repetition; fidelity scoring is a parameter. */
module ServiceReplay {
  import opened Domain

  /** Target behaviour by key; `None` is JSON null. */
  type Vector = map<int, Option<int>>

  type Components = map<int, real>

  /** An empty error text counts as no error. */
  datatype Output = Output(vector: Vector, fidelity: Components, error: string)

  datatype Trial = Trial(present: Output, withheld: Output)

  datatype Setup = Setup(
    runner: nat -> Trial,
    meetsMinimum: (Components, Components) -> bool,
    overall: (Components, Components) -> real,
    requested: int)

  const MIN_REPETITIONS_FOR_SIGNIFICANCE := 5

  function Repetitions(s: Setup): nat {
    if s.requested > 1 then s.requested else 1
  }

  // ----- comparing one trial

  function Get(v: Vector, key: int): Option<int> {
    if key in v then v[key] else None
  }

  /** Some key on either side compares differently; an absent key reads as null. */
  predicate AnyChange(present: Vector, withheld: Vector) {
    exists key :: key in present.Keys + withheld.Keys && Get(present, key) != Get(withheld, key)
  }

  function ErrorOf(t: Trial): string {
    if t.present.error != "" then t.present.error else t.withheld.error
  }

  // ----- what is saved of a repetition

  datatype Saved =
    | Broken(error: string)
    | Sound(anyChange: bool, presentVector: Vector, withheldVector: Vector, presentFidelity: Components, withheldFidelity: Components)

  function Save(t: Trial): Saved {
    if ErrorOf(t) != "" then Broken(ErrorOf(t))
    else Sound(AnyChange(t.present.vector, t.withheld.vector), t.present.vector, t.withheld.vector, t.present.fidelity, t.withheld.fidelity)
  }

  // ----- the verdict

  datatype Outcome = Outcome(verdict: Verdict, fidelity: real, effect: Option<real>, repetitions: nat, error: string)

  function Changed(s: Setup, i: nat): bool {
    AnyChange(s.runner(i).present.vector, s.runner(i).withheld.vector)
  }

  function Outcomes(s: Setup, n: nat): seq<bool> {
    if n == 0 then [] else Outcomes(s, n - 1) + [Changed(s, n - 1)]
  }

  function Count(bs: seq<bool>): nat {
    if bs == [] then 0 else Count(bs[..|bs| - 1]) + if bs[|bs| - 1] then 1 else 0
  }

  predicate Breaks(s: Setup, i: nat) {
    ErrorOf(s.runner(i)) != ""
  }

  /** The first repetition from `i` on whose runner fails, or `n`. */
  function FirstBreak(s: Setup, i: nat, n: nat): (k: nat)
    requires i <= n
    ensures i <= k <= n
    ensures k < n ==> Breaks(s, k)
    ensures forall j :: i <= j < k ==> !Breaks(s, j)
    decreases n - i
  {
    if i == n || Breaks(s, i) then i else FirstBreak(s, i + 1, n)
  }

  function Ladder(s: Setup, outcomes: seq<bool>, presentVector: Vector, withheldVector: Vector,
                  presentFidelity: Components, withheldFidelity: Components): Outcome
    requires outcomes != []
  {
    Outcome(
      if !s.meetsMinimum(presentFidelity, withheldFidelity) then UnresolvedFidelity
      else if s.requested > 1 && |outcomes| < MIN_REPETITIONS_FOR_SIGNIFICANCE then UnresolvedRepetitions
      else if AnyChange(presentVector, withheldVector) then Confirmed
      else VerdictRejected,
      s.overall(presentFidelity, withheldFidelity),
      Some(Count(outcomes) as real / |outcomes| as real),
      |outcomes|, "")
  }

  function Failure(s: Setup, k: nat): Outcome {
    Outcome(UnresolvedRunnerFailure, 0.0, None, k + 1, ErrorOf(s.runner(k)))
  }

  lemma {:induction false} OutcomesLength(s: Setup, n: nat)
    ensures |Outcomes(s, n)| == n
  {
    if n > 0 {
      OutcomesLength(s, n - 1);
    }
  }

  /** What an undisturbed replay concludes. */
  function Replayed(s: Setup): Outcome {
    var n := Repetitions(s);
    var k := FirstBreak(s, 0, n);
    OutcomesLength(s, n);
    if k < n then Failure(s, k)
    else
      var last := s.runner(n - 1);
      Ladder(s, Outcomes(s, n), last.present.vector, last.withheld.vector, last.present.fidelity, last.withheld.fidelity)
  }

  /** Withholding the ancestor makes a difference: some key, read as null where it is
      absent, has another value on either side. */
  ghost predicate Influenced(t: Trial) {
    var present, withheld := t.present.vector, t.withheld.vector;
    exists key: int ::
      (if key in present then present[key] else None) != (if key in withheld then withheld[key] else None)
  }

  ghost predicate Errs(t: Trial) {
    t.present.error != "" || t.withheld.error != ""
  }

  lemma ChangeIsInfluence(t: Trial)
    ensures AnyChange(t.present.vector, t.withheld.vector) <==> Influenced(t)
  {
    var present, withheld := t.present.vector, t.withheld.vector;
    if key: int :|
      (if key in present then present[key] else None) != (if key in withheld then withheld[key] else None)
    {
      assert key in present.Keys + withheld.Keys;
      assert Get(present, key) != Get(withheld, key);
    }
    if key :| key in present.Keys + withheld.Keys && Get(present, key) != Get(withheld, key) {
      assert (if key in present then present[key] else None) != (if key in withheld then withheld[key] else None);
    }
  }

  ghost function InfluencedUpTo(s: Setup, n: nat): set<nat> {
    set i: nat | i < n && Influenced(s.runner(i))
  }

  lemma {:induction false} CountsInfluenced(s: Setup, n: nat)
    ensures Count(Outcomes(s, n)) == |InfluencedUpTo(s, n)|
  {
    if n == 0 {
      assert InfluencedUpTo(s, 0) == {};
    } else {
      CountsInfluenced(s, n - 1);
      ChangeIsInfluence(s.runner(n - 1));
      assert Outcomes(s, n)[..|Outcomes(s, n)| - 1] == Outcomes(s, n - 1);
      assert InfluencedUpTo(s, n) == InfluencedUpTo(s, n - 1) + if Influenced(s.runner(n - 1)) then {n - 1} else {};
    }
  }

  /** A runner error is never evidence either way. Without one, low fidelity comes first,
      too few repetitions of a repeated replay second; and then the verdict is confirmed
      exactly when the last repetition shows an influence, rejected exactly when it shows
      none. The effect is the share of repetitions that showed one. */
  lemma VerdictMeans(s: Setup, n: nat)
    requires n == Repetitions(s)
    ensures n >= 1 && n >= s.requested && (n == 1 || n == s.requested)
    ensures var r, last := Replayed(s), s.runner(n - 1);
      var sound := forall i: nat :: i < n ==> !Errs(s.runner(i));
      var exact := s.meetsMinimum(last.present.fidelity, last.withheld.fidelity);
      var enough := s.requested <= 1 || n >= 5;
      && (r.verdict == UnresolvedRunnerFailure <==> !sound)
      && (r.verdict == UnresolvedFidelity <==> sound && !exact)
      && (r.verdict == UnresolvedRepetitions <==> sound && exact && !enough)
      && (r.verdict == Confirmed <==> sound && exact && enough && Influenced(last))
      && (r.verdict == VerdictRejected <==> sound && exact && enough && !Influenced(last))
      && (sound ==>
            && r.effect == Some(|InfluencedUpTo(s, n)| as real / n as real)
            && r.fidelity == s.overall(last.present.fidelity, last.withheld.fidelity)
            && r.repetitions == n && r.error == "")
      && (!sound ==>
            && r.effect == None && r.fidelity == 0.0 && 1 <= r.repetitions <= n
            && (forall i: nat :: i < r.repetitions - 1 ==> !Errs(s.runner(i)))
            && var t := s.runner(r.repetitions - 1);
               Errs(t) && r.error == if t.present.error != "" then t.present.error else t.withheld.error)
  {
    hide Influenced, Replayed, Ladder, AnyChange, FirstBreak, Count, Outcomes;
    forall i: nat ensures Breaks(s, i) <==> Errs(s.runner(i)) {
      BreaksAre(s, i);
    }
    var k := FirstBreak(s, 0, n);
    if k < n {
      BrokenEnd(s, k);
    } else {
      ClearEnd(s);
      CountsInfluenced(s, n);
      ChangeIsInfluence(s.runner(n - 1));
      var last := s.runner(n - 1);
      LadderMeans(s, Outcomes(s, n), last);
    }
  }

  lemma BreaksAre(s: Setup, i: nat)
    ensures Breaks(s, i) <==> Errs(s.runner(i))
  {
  }

  lemma LadderMeans(s: Setup, outcomes: seq<bool>, t: Trial)
    requires outcomes != []
    ensures var r := Ladder(s, outcomes, t.present.vector, t.withheld.vector, t.present.fidelity, t.withheld.fidelity);
      var exact, enough := s.meetsMinimum(t.present.fidelity, t.withheld.fidelity), s.requested <= 1 || |outcomes| >= 5;
      && (r.verdict == UnresolvedFidelity <==> !exact)
      && (r.verdict == UnresolvedRepetitions <==> exact && !enough)
      && (r.verdict == Confirmed <==> exact && enough && AnyChange(t.present.vector, t.withheld.vector))
      && (r.verdict == VerdictRejected <==> exact && enough && !AnyChange(t.present.vector, t.withheld.vector))
      && r.verdict != UnresolvedRunnerFailure
      && r.effect == Some(Count(outcomes) as real / |outcomes| as real) && r.repetitions == |outcomes| && r.error == ""
      && r.fidelity == s.overall(t.present.fidelity, t.withheld.fidelity)
  {
    hide AnyChange, Count;
  }

  predicate Clear(s: Setup, i: nat) {
    forall j :: 0 <= j < i ==> !Breaks(s, j)
  }

  lemma BrokenEnd(s: Setup, i: nat)
    requires i < Repetitions(s) && Clear(s, i) && Breaks(s, i)
    ensures Replayed(s) == Failure(s, i)
  {
    assert FirstBreak(s, 0, Repetitions(s)) == i;
  }

  lemma ClearEnd(s: Setup)
    requires Clear(s, Repetitions(s))
    ensures var n := Repetitions(s);
      var last := s.runner(n - 1);
      |Outcomes(s, n)| == n && Replayed(s) ==
        Ladder(s, Outcomes(s, n), last.present.vector, last.withheld.vector, last.present.fidelity, last.withheld.fidelity)
  {
    OutcomesLength(s, Repetitions(s));
    assert FirstBreak(s, 0, Repetitions(s)) == Repetitions(s);
  }

  // ----- one shot

  method RunPairedReplay(s: Setup) returns (r: Outcome)
    ensures r == Replayed(s)
  {
    hide Replayed, Ladder;
    var n := Repetitions(s);
    var outcomes: seq<bool> := [];
    var last := s.runner(0);
    for i := 0 to n
      invariant outcomes == Outcomes(s, i)
      invariant i > 0 ==> last == s.runner(i - 1)
      invariant Clear(s, i)
    {
      last := s.runner(i);
      if last.present.error != "" || last.withheld.error != "" {
        OutcomesLength(s, i);
        BrokenEnd(s, i);
        return Failure(s, |outcomes|);
      }
      outcomes := outcomes + [AnyChange(last.present.vector, last.withheld.vector)];
    }
    ClearEnd(s);
    return Ladder(s, outcomes, last.present.vector, last.withheld.vector, last.present.fidelity, last.withheld.fidelity);
  }

  // ----- resumable

  /** What was saved is what the runner would say again. */
  ghost predicate Faithful(s: Setup, done: map<nat, Saved>) {
    forall i :: i in done ==> done[i] == Save(s.runner(i))
  }

  /** The persisted repetitions of one replay run; a process that has used up its
      lifetime dies before its next commit. */
  class Repetition {
    var done: map<nat, Saved>
    var checkpoint: nat
    var lifetime: Option<nat>

    constructor ()
      ensures done == map[] && checkpoint == 0 && lifetime.None?
    {
      done, checkpoint, lifetime := map[], 0, None;
    }

    method Tick() returns (alive: bool)
      modifies this`lifetime
      ensures old(lifetime).None? ==> alive && lifetime.None?
    {
      if lifetime == Some(0) {
        return false;
      }
      if lifetime.Some? {
        lifetime := Some(lifetime.value - 1);
      }
      return true;
    }

    method Persist(i: nat, saved: Saved) returns (r: Result<()>)
      modifies this
      ensures r.Ok? ==> done == old(done)[i := saved] && checkpoint == old(checkpoint)
      ensures r.Err? ==> r.Crashed() && done == old(done) && checkpoint == old(checkpoint)
      ensures old(lifetime).None? ==> r.Ok? && lifetime.None?
    {
      var alive := Tick();
      if !alive {
        return Err(Crash);
      }
      done := done[i := saved];
      return Ok(());
    }

    method Checkpoint(i: nat) returns (r: Result<()>)
      modifies this
      ensures done == old(done)
      ensures r.Ok? ==> checkpoint == i
      ensures r.Err? ==> r.Crashed()
      ensures old(lifetime).None? ==> r.Ok? && lifetime.None?
    {
      var alive := Tick();
      if !alive {
        return Err(Crash);
      }
      checkpoint := i;
      return Ok(());
    }
  }

  /** Save the repetition, then the checkpoint. */
  method PersistTrial(s: Setup, reps: Repetition, i: nat, saved: Saved) returns (r: Result<()>)
    requires Faithful(s, reps.done) && saved == Save(s.runner(i))
    modifies reps
    ensures Faithful(s, reps.done) && (reps.done == old(reps.done) || reps.done == old(reps.done)[i := saved])
    ensures r.Ok? ==> reps.done == old(reps.done)[i := saved]
    ensures r.Ok? ==> i in reps.done && reps.checkpoint == i + 1
    ensures r.Err? ==> r.Crashed()
    ensures old(reps.lifetime).None? ==> r.Ok? && reps.lifetime.None?
  {
    var _ :- reps.Persist(i, saved);
    r := reps.Checkpoint(i + 1);
  }

  /** What the loop carries from one repetition to the next. */
  datatype Seen = Seen(outcomes: seq<bool>, presentVector: Vector, withheldVector: Vector,
                       presentFidelity: Components, withheldFidelity: Components)

  /** The first `i` repetitions ran without error, saved or not. */
  ghost predicate UpTo(s: Setup, seen: Seen, i: nat) {
    && Clear(s, i) && seen.outcomes == Outcomes(s, i)
    && (i > 0 ==>
          var t := s.runner(i - 1);
          && seen.presentVector == t.present.vector && seen.withheldVector == t.withheld.vector
          && seen.presentFidelity == t.present.fidelity && seen.withheldFidelity == t.withheld.fidelity)
  }

  function Add(seen: Seen, saved: Saved): Seen
    requires saved.Sound?
  {
    Seen(seen.outcomes + [saved.anyChange], saved.presentVector, saved.withheldVector, saved.presentFidelity, saved.withheldFidelity)
  }

  lemma AddKeeps(s: Setup, seen: Seen, i: nat)
    requires UpTo(s, seen, i)
    ensures Save(s.runner(i)).Sound? ==> UpTo(s, Add(seen, Save(s.runner(i))), i + 1)
    ensures Save(s.runner(i)).Broken? && i < Repetitions(s) ==>
              Replayed(s) == Outcome(UnresolvedRunnerFailure, 0.0, None, i + 1, Save(s.runner(i)).error)
    ensures Save(s.runner(i)).Broken? <==> Breaks(s, i)
  {
    hide AnyChange;
    if Breaks(s, i) && i < Repetitions(s) {
      BrokenEnd(s, i);
    }
  }

  /** `Some` outcome, or `None` when cancelled. */
  method RunServiceReplay(s: Setup, reps: Repetition, cancel: nat -> bool) returns (r: Result<Option<Outcome>>)
    requires Faithful(s, reps.done)
    modifies reps
    ensures Faithful(s, reps.done) && old(reps.done).Keys <= reps.done.Keys
    ensures r.Ok? && r.value.Some? ==> r.value.value == Replayed(s)
    ensures r.Ok? && r.value.Some? ==> forall i :: 0 <= i < Replayed(s).repetitions ==> i in reps.done
    ensures r.Ok? && r.value.None? ==> exists i :: 0 <= i < Repetitions(s) && cancel(i)
    ensures r.Err? ==> r.Crashed()
    ensures old(reps.lifetime).None? ==> r.Ok? && reps.lifetime.None?
  {
    hide AnyChange, Replayed, Ladder, UpTo, Save;
    var already, n := reps.done, Repetitions(s);
    var seen := Seen([], map[], map[], map[], map[]);
    Nothing(s, seen);
    for i := 0 to n
      invariant Faithful(s, reps.done) && already.Keys <= reps.done.Keys
      invariant UpTo(s, seen, i) && forall j :: 0 <= j < i ==> j in reps.done
      invariant old(reps.lifetime).None? ==> reps.lifetime.None?
    {
      AddKeeps(s, seen, i);
      if cancel(i) {
        return Ok(None);
      }
      if i in already {
        if already[i].Broken? {
          return Ok(Some(Outcome(UnresolvedRunnerFailure, 0.0, None, i + 1, already[i].error)));
        }
        seen := Add(seen, already[i]);
        continue;
      }
      var trial := s.runner(i);
      SaveIs(trial);
      if trial.present.error != "" || trial.withheld.error != "" {
        var _ :- PersistTrial(s, reps, i, Broken(ErrorOf(trial)));
        return Ok(Some(Outcome(UnresolvedRunnerFailure, 0.0, None, i + 1, ErrorOf(trial))));
      }
      var saved := Sound(AnyChange(trial.present.vector, trial.withheld.vector), trial.present.vector, trial.withheld.vector,
                         trial.present.fidelity, trial.withheld.fidelity);
      seen := Add(seen, saved);
      var _ :- PersistTrial(s, reps, i, saved);
    }
    UpToEnd(s, seen);
    return Ok(Some(Ladder(s, seen.outcomes, seen.presentVector, seen.withheldVector, seen.presentFidelity, seen.withheldFidelity)));
  }

  lemma Nothing(s: Setup, seen: Seen)
    requires seen.outcomes == []
    ensures UpTo(s, seen, 0)
  {
  }

  lemma SaveIs(t: Trial)
    ensures Save(t) == if t.present.error != "" || t.withheld.error != "" then Broken(ErrorOf(t))
                       else Sound(AnyChange(t.present.vector, t.withheld.vector), t.present.vector, t.withheld.vector,
                                  t.present.fidelity, t.withheld.fidelity)
  {
  }

  lemma UpToEnd(s: Setup, seen: Seen)
    requires UpTo(s, seen, Repetitions(s))
    ensures seen.outcomes != [] && Replayed(s).repetitions == Repetitions(s)
    ensures Replayed(s) == Ladder(s, seen.outcomes, seen.presentVector, seen.withheldVector, seen.presentFidelity, seen.withheldFidelity)
  {
    ClearEnd(s);
  }

  /** Any number of interrupted attempts, then one that is not: the verdict, fidelity
      and effect of one undisturbed run and of the one-shot replay. */
  method ResumeUntilDone(s: Setup, lifetimes: seq<nat>) returns (r: Outcome, oneShot: Outcome)
    ensures r == Replayed(s) && r == oneShot
  {
    var reps := new Repetition();
    for i := 0 to |lifetimes|
      invariant Faithful(s, reps.done)
    {
      reps.lifetime := Some(lifetimes[i]);
      var attempt := RunServiceReplay(s, reps, (i: nat) => false);
    }
    reps.lifetime := None;
    var last := RunServiceReplay(s, reps, (i: nat) => false);
    r := last.value.value;
    oneShot := RunPairedReplay(s);
  }
}
