/** The revocation state machine: the transition table, `transition`, and the
    resume-aware `_advance`, together with what they keep over whole runs. */
module StateMachine {

  datatype State =
    | Requested
    | BarrierApplied
    | CandidateRecovery
    | ReplaySelection
    | Replaying
    | QuarantineApplied
    | RebuildPlanning
    | Rebuilding
    | Verifying
    | Completed
    | CompletedWithUnresolved
    | Failed
    | CancelledBeforeBarrier

  /** One row of the transition log. */
  datatype Step = Step(from: State, to: State)

  function Allowed(s: State): set<State> {
    match s
    case Requested => {BarrierApplied, CancelledBeforeBarrier, CandidateRecovery, Failed}
    case BarrierApplied => {CandidateRecovery, Failed}
    case CandidateRecovery => {ReplaySelection, QuarantineApplied, Completed, CompletedWithUnresolved, Failed}
    case ReplaySelection => {Replaying, Failed}
    case Replaying => {QuarantineApplied, Failed}
    case QuarantineApplied => {RebuildPlanning, Completed, CompletedWithUnresolved, Failed}
    case RebuildPlanning => {Rebuilding, Failed}
    case Rebuilding => {Verifying, Failed}
    case Verifying => {Completed, CompletedWithUnresolved, Failed}
    case _ => {}
  }

  predicate Terminal(s: State) {
    s in {Completed, CompletedWithUnresolved, Failed, CancelledBeforeBarrier}
  }

  /** Position in the stage order; a target outside the order counts as past it. */
  function StageIndex(s: State): nat {
    match s
    case Requested => 0
    case BarrierApplied => 1
    case CandidateRecovery => 2
    case ReplaySelection => 3
    case Replaying => 4
    case QuarantineApplied => 5
    case RebuildPlanning => 6
    case Rebuilding => 7
    case Verifying => 8
    case _ => 9
  }

  datatype Move = Stay | Go | Illegal

  /** What `transition` does. */
  function Transition(from: State, to: State): Move {
    if from == to then Stay else if to in Allowed(from) then Go else Illegal
  }

  /** What `_advance` does: nothing once the target is reached or passed. */
  function Advance(from: State, to: State): Move {
    if Terminal(from) then Stay
    else if StageIndex(from) >= StageIndex(to) && from != to then Stay
    else Transition(from, to)
  }

  function After(from: State, to: State, m: Move): State {
    if m.Go? then to else from
  }

  /** States a call of `run_revocation` starts from, or leaves behind if it dies. */
  predicate Running(s: State) {
    2 <= StageIndex(s) <= 8
  }

  predicate BeforeQuarantine(s: State) {
    StageIndex(s) <= StageIndex(Replaying)
  }

  /** The table: from every state that is not final a run may fail; otherwise it moves to
      the next stage, except that a request may be cancelled or skip the barrier, recovery
      may go straight to quarantine, and a run may complete from recovery, quarantine and
      verification, from verification only so. */
  lemma TableMeans(from: State, to: State)
    ensures to in Allowed(from) <==>
              && from !in {Completed, CompletedWithUnresolved, Failed, CancelledBeforeBarrier}
              && (|| to == Failed
                  || (StageIndex(to) == StageIndex(from) + 1 && StageIndex(to) <= 8)
                  || (from == Requested && to in {CandidateRecovery, CancelledBeforeBarrier})
                  || (from == CandidateRecovery && to == QuarantineApplied)
                  || (from in {CandidateRecovery, QuarantineApplied, Verifying} && to in {Completed, CompletedWithUnresolved}))
    ensures Terminal(from) <==> forall s :: s !in Allowed(from)
  {
    assert Failed in Allowed(from) || Allowed(from) == {};
  }

  /** The stages follow one another in this order, and everything else comes after them. */
  lemma StagesInOrder(s: State, i: nat)
    ensures var stages := [Requested, BarrierApplied, CandidateRecovery, ReplaySelection, Replaying, QuarantineApplied,
                           RebuildPlanning, Rebuilding, Verifying];
      && (i < |stages| ==> (StageIndex(s) == i <==> s == stages[i]))
      && (s !in stages ==> StageIndex(s) == |stages|)
  {
  }

  lemma AllowedClimbs(from: State, to: State)
    requires to in Allowed(from)
    ensures StageIndex(from) < StageIndex(to)
  {
  }

  /** A transition log that may have lost rows: every row is in the table and
      every row starts no earlier than its predecessor ended. */
  ghost predicate Climbs(log: seq<Step>, now: State) {
    && (forall i :: 0 <= i < |log| ==> log[i].to in Allowed(log[i].from))
    && (forall i, j :: 0 <= i < j < |log| ==> StageIndex(log[i].to) <= StageIndex(log[j].from))
    && (log != [] ==> StageIndex(log[|log| - 1].to) <= StageIndex(now))
  }

  /** A complete log: an unbroken path in the table from the first state to `now`. */
  ghost predicate PathInTable(log: seq<Step>, now: State) {
    && (forall i :: 0 <= i < |log| ==> log[i].to in Allowed(log[i].from))
    && (forall i :: 0 <= i < |log| - 1 ==> log[i].to == log[i + 1].from)
    && (log != [] ==> log[0].from == Requested && log[|log| - 1].to == now)
    && (log == [] ==> now == Requested)
  }

  /** However many times the process died, no event ever records more than nine
      transitions. */
  lemma {:induction false} LogIsBounded(log: seq<Step>, now: State)
    requires Climbs(log, now)
    ensures |log| <= StageIndex(now) <= 9
  {
    if log != [] {
      var k := |log| - 1;
      AllowedClimbs(log[k].from, log[k].to);
      assert k > 0 ==> StageIndex(log[..k][k - 1].to) <= StageIndex(log[k].from);
      LogIsBounded(log[..k], log[k].from);
    }
  }

  lemma {:induction false} PathClimbs(log: seq<Step>, now: State)
    requires PathInTable(log, now)
    ensures Climbs(log, now)
    decreases |log|
  {
    if |log| > 0 {
      var k := |log| - 1;
      PathClimbs(log[..k], log[k].from);
      AllowedClimbs(log[k].from, log[k].to);
      if k > 0 {
        AllowedClimbs(log[k - 1].from, log[k - 1].to);
        assert log[..k][k - 1].to == log[k].from;
      }
      forall i, j | 0 <= i < j < |log| ensures StageIndex(log[i].to) <= StageIndex(log[j].from) {
        if j < k {
          assert log[..k][i] == log[i] && log[..k][j] == log[j];
        } else if i < k - 1 {
          assert StageIndex(log[..k][i].to) <= StageIndex(log[..k][k - 1].from);
        }
      }
    }
  }

  /** Cancellation is a choice of the first state only: once a log, rows lost to crashes
      or not, shows any transition other than the cancelling one itself, no later row
      cancels; and an unbroken log then never ends cancelled. */
  lemma NoCancellationAfterBarrier(log: seq<Step>, now: State, i: nat)
    requires Climbs(log, now)
    requires i < |log| && log[i].to != CancelledBeforeBarrier
    ensures forall j :: i <= j < |log| ==> log[j].to != CancelledBeforeBarrier
    ensures PathInTable(log, now) ==> now != CancelledBeforeBarrier
  {
    AllowedClimbs(log[i].from, log[i].to);
    forall j | i <= j < |log| ensures log[j].to != CancelledBeforeBarrier {
      if j > i {
        assert StageIndex(log[i].to) <= StageIndex(log[j].from);
      }
    }
  }

  /** `_advance` over the stages in order never raises from a state the pipeline
      itself persists, and always lands at or past its target. */
  lemma AdvanceNeverStuck(from: State, to: State)
    requires Running(from) && Running(to) && to != CandidateRecovery
    requires StageIndex(from) + 1 >= StageIndex(to)
    ensures !Advance(from, to).Illegal?
    ensures StageIndex(After(from, to, Advance(from, to))) >= StageIndex(to)
  {
  }
}
