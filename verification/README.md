# SkillRewind: a verified model of the revocation engine

SkillRewind withdraws an artifact and everything derived from it: it takes the recorded
descendants out of service, looks for hidden descendants, replays derivations with and without
the suspect input, quarantines what the replay confirms, rebuilds it from clean supports, and
publishes only what passes verification. This project models that engine in Dafny and proves
what it keeps, over every run and every point at which a worker process can die.

`dafny verify dfyconfig.toml` checks the whole project.

## How the model is laid out

| part | modules |
|---|---|
| vocabulary, ordered lists | `Domain`, `Seqs` |
| lineage graph | `Reachability` (what a query means), `Lineage` (closure, depth-bounded search), `Paths`, `Cycles` |
| revocation state machine | `StateMachine` |
| the store, one commit at a time | `Store` |
| rebuild plans and suites | `Planner` |
| what a revocation comes to, as functions of the store | `RevocationSpec`, `RevocationLaws`, `HiddenEvidence`, `Attempts`, `Foresight` |
| what every stretch of a run keeps | `RevocationInv`, `Frames`, `Track`, `TrackSteps`, `Publication`, `RevocationSteps` |
| the pipeline, stage by stage | `Request`, `Pipeline`, `ReplayStage`, `QuarantineStage`, `RebuildStage`, `Revocation`, `CrashRuns` |
| when a death changes the end | `Exposure`, `Probes`, `ExposedRun` |
| alias resolution over all operations | `ServingSafety` |
| leases, backoff, retries | `JobQueue` |
| resumable paired replay | `ServiceReplay` |
| derivation inputs and edges | `Derivations` |
| keyset pages and scoring runs | `CandidateScan` |
| edit distance, audit chain, token bucket | `EditDistance`, `AuditLog`, `RateLimit` |

`Store.Workspace` is the object every stage writes through. Each repository call that commits in
the source is one commit here. A process dies when it is about to commit and has used up its
`lifetime`, or stands at a store that `doom` picks: the commit fails with `Crash`, the local
variables are gone and the tables stay as they are. A contract over every `lifetime` and `doom` is
therefore a statement about every crash point, and a chosen `doom` makes a process die at a chosen
place. `Stores` are the stores the process has gone through.

`Foresight.Outcome` is what one undisturbed call returns, as a function of the store and the
persisted event: recovery takes back what it finds, replay writes its verdicts, the quarantine stage
makes its ledger, and then each target is attempted on the store the attempts before it left
(`Attempts.AttemptAll`). `Revocation.RunRevocation` returns exactly that, from every state an earlier
call may have left and with no hypothesis; `CrashRuns` proves what an outcome conserves and decides,
apart from the code that reaches it.

The central relation is `RevocationSteps.Kept`. It relates the store before and after any stretch of
a run, complete or cut short: the persisted event is still one the pipeline accepts (`Good`), no
other event is touched, log rows are only appended, a finished event never changes, a forensic run
leaves everything that is served alone, the replay decisions and the quarantined list a call would
end with are unchanged, publications stand, and a store that was on the way to the end of the
undisturbed run from some fresh event still is (`Track.OnTrack`). Every method of the pipeline ensures
`Kept`, so a series of dying calls does too. Those methods require `Good`, which is what the pipeline
itself leaves behind: a successful request establishes it (`CrashRuns.StartIsGood`) and every stretch
of a run keeps it.

## Whether crash points can be observed

What is decided and what is quarantined never depends on where processes die. What is rebuilt can:
a resumed call runs candidate recovery again, which writes `inferred` over replay-confirmed edges
(`src/skillrewind/lineage/candidates.py:157-178`) that replay does not restore, and the planner
then lets a support in that it would have excluded (`src/skillrewind/rebuild/planner.py:64-69`).
`ExposedRun.DeathChangesTheEnd` is such a run, from a store a request leaves
(`ExposedRun.RequestExposed`).

The exact condition is `Track.Origin.Firm`: every support that a plan of the undisturbed run excludes
for its evidence has a confirmed edge that no recovery pass finds, at any snapshot the run goes
through up to the end of that target. Where it holds, every series of dying processes ends as the
undisturbed one (`CrashRuns.CompareRuns`). Where it fails, `Probes.Probe` constructs a series of dying
processes whose survivor plans a target differently; it finds none exactly when the condition holds.
If the undisturbed run rebuilds that target, or the attempt on it changes in any other way, the
survivor ends with another summary (`Probes.DeathsMatter`).

The comparison rests on what content addressing and the recipe registry give: a successor's identifier is a digest
over the original and the supports its plan keeps and excludes, so it is none of them
(`Frames.Addressed`); the digest covers both lists of the plan (`Probes.Named`); and whether there
is a recipe does not depend on the supports (`Probes.Regular`).

## What the source does where its own text says otherwise

- `request_revocation` with a known key returns the stored event and leaves an interrupted barrier
  as it is (`src/skillrewind/revocation/service.py:48-50`), although
  `src/skillrewind/revocation/barrier.py:23-25` says a retry completes it. `Request.RequestRevocation` says so.
- `run_revocation` calls itself resumable by construction and says that no rebuild attempt is repeated
  (`src/skillrewind/revocation/service.py:356-364`). An attempt cut short is made again, and may come to
  something else, as the section above says.
- `run_revocation` raises on an event still in `requested` or `barrier-applied`, and on one in
  `rebuild-planning` or `rebuilding` when called without `attempt_rebuild`. Those are exactly the
  states it cannot leave (`RevocationInv.Stuck`, `Revocation.RunRevocation`).
- `transition` saves the event and the log row in two commits; a crash between them loses the row. A
  log is an unbroken path in the table for a run that did not die, and a strictly climbing sequence
  of at most nine table rows for any run.
- Quarantine and barrier write the row before the status change raises for a missing artifact
  (`src/skillrewind/quarantine/service.py:10-18`, `src/skillrewind/revocation/barrier.py:36-43`). The row
  stays, and an artifact ingested later under that identifier is active under an active row;
  `ServingSafety.StepKeeps` and `ServingSafety.RunKeeps` are exact about it.
- `publish_successor` calls itself atomic and is five commits. A crash between `clear_alias` and
  `set_alias` loses the alias: the resumed call finds none on the original.
- Revoked stays revoked only until another event's barrier reaches the artifact as a descendant, or an
  operation on the artifact itself; `ServingSafety.RevokedUntilLifted` is exact about it.
- `enqueue` matches an idempotency key whatever the job kind, although its text says for the same kind.
- `complete` and `fail` take the report of any worker, so a finished job can be revived; `JobQueue.OnlyReportsRevive` says when.
- `add_inputs` retried after a crash between a row and its edge leaves the edge out; setting the output again adds it.
- A resumed scoring run reports a `found` count that starts from every row already scored, candidate or not.
- The token bucket admits the first request of a key even with capacity below one.
- `has_cycle_through` never finds a cycle, since the roots are left out of the descendants it searches.

## Model

| member | source | states |
|---|---|---|
| Revocation.RunRevocation | src/skillrewind/revocation/service.py:345-540 | From any state an earlier call left, and dying anywhere: the run is kept; a terminal event is a no-op; a call that ends has exactly the summary foreseen from its start, for whatever closure of the roots, everything accounted for, and has passed every step of every target it rebuilt; every newly listed successor comes from an attempt that passes on a store the process held; it raises exactly for missing roots and for the states it cannot leave |
| CrashRuns.RunUntilDone | src/skillrewind/revocation/service.py:356-364 | Any number of calls, each dying after some commits or at a store of some kind, then one that lives, finish exactly when one undisturbed call would, with its decisions and quarantined list, everything accounted for, every successor from a passing attempt on a store of the run, and the whole summary of the undisturbed run from any fresh event the store is still on the way from |
| CrashRuns.CompareRuns | src/skillrewind/revocation/service.py:356-364 | One undisturbed process and any series of dying ones from the same store: same success, same decisions, same quarantined list; from a fresh event no plan of which rests on evidence recovery takes back, the same summary, and it is the one foreseen |
| CrashRuns.Revoke | src/skillrewind/revocation/service.py:33-76 | Request and dying runs together: a forensic revocation leaves statuses, rows, aliases and successors untouched end to end; any other log starts with the barrier; no log exceeds nine rows; everything quarantined is accounted for; every listed successor was built, on some store of the run, from supports that existed, had no replay-confirmed edge, and were neither revoked nor quarantined |
| CrashRuns.OutcomeConserves | src/skillrewind/revocation/service.py:444-533 | In every outcome the quarantined list has no duplicates, splits exactly into rebuilt originals and reported targets when rebuild is on, and the run is completed exactly when nothing is reported |
| CrashRuns.OutcomeDecides | src/skillrewind/revocation/service.py:412-442 | While replay is to come, each candidate not decided before is passed over if it is not selected, noted if its target has no derivation, and decided by its replay otherwise |
| CrashRuns.OutcomeFollowsPolicy | src/skillrewind/revocation/decisions.py:11-28 | In every outcome confirmed targets are quarantined outside forensic runs; strict, or balanced with the setting, at high or critical severity quarantines the target of every open replay and reports none; low or medium severity, forensic, or balanced without the setting lets only confirmed targets join the list and reports the open ones with their verdict; every other report is a rebuild that was unavailable or failed |
| CrashRuns.OutcomeCandidates | src/skillrewind/revocation/service.py:376-392 | The candidates are exactly the pairs scored as plausible between a member of the closure and one of the first ten thousand listed artifacts outside it |
| CrashRuns.OutcomeKeepsDecisions | src/skillrewind/revocation/service.py:412-442 | Decisions already saved come first and unchanged, and past replay they are all there is |
| CrashRuns.StartIsGood | src/skillrewind/revocation/service.py:69-76 | What a request leaves is a state every later call accepts: candidate pairs are distinct and every target exists |
| CrashRuns.HiddenTargets | src/skillrewind/revocation/service.py:376-392 | A recovery pass pairs each member with each target at most once and only with listed artifacts |
| Revocation.RecoverAndReplay | src/skillrewind/revocation/service.py:366-446 | The first half of a call ends past replay with exactly the decisions and the hidden evidence foreseen, changes no other table the outcome reads, and raises only for missing roots or before recovery |
| Revocation.ReplayUnlessDone | src/skillrewind/revocation/service.py:412-442 | Replay happens only on the way out of the replaying state, whatever an earlier call saved |
| Revocation.RebuildIfAsked | src/skillrewind/revocation/service.py:481-523 | The rebuild block is entered exactly when asked for, outside forensic runs, with something quarantined; store and event end as the queue of attempts foreseen from its start, and every quarantined target is rebuilt or reported |
| Revocation.Finalize | src/skillrewind/revocation/service.py:525-533 | The final state is completed exactly when nothing is unresolved; it cannot be reached from planning or rebuilding |
| RevocationInv.StageDoneSettles | src/skillrewind/revocation/service.py:454-479 | A finished quarantine stage is a fixed point |
| RevocationSteps.QuietKept | src/skillrewind/revocation/service.py:356-364 | A commit that leaves the event and every table the findings read alone, and the store on the way to the undisturbed end, keeps the run |
| RevocationSteps.HiddenKept | src/skillrewind/lineage/candidates.py:157-178 | Writing hidden evidence for a pair recovery finds keeps the run, unless it confirms a pair the run does not decide to confirm |
| RevocationSteps.EventKept | src/skillrewind/persistence/service/workspace.py:252-259 | Saving the event keeps the run when the saved event is well formed, leads to the same findings and is still on the way to the same end |
| RevocationSteps.LogKept | src/skillrewind/persistence/service/workspace.py:261-265 | Saving a log row keeps the run when the log still climbs |
| RevocationSteps.SameProgress | src/skillrewind/revocation/service.py:393-394 | Closure and candidate list are bookkeeping: an event that differs only there, or in decisions leading to the same list, has the same findings and stays on the way to the same end |
| RevocationSteps.QuarantineKept | src/skillrewind/quarantine/service.py:10-18 | A quarantine of a target of the run, whole or cut short, keeps the run |
| RevocationSteps.WorkKept | src/skillrewind/rebuild/service.py:59-124 | A build, or a publication after a passing suite, whole or cut short anywhere, keeps the run |
| RevocationSteps.RecordKept | src/skillrewind/revocation/service.py:498-519 | Recording how the attempt on the target in hand ended keeps the run |
| HiddenEvidence.SweptConfirms | src/skillrewind/lineage/candidates.py:157-178 | After a recovery pass exactly those pairs are confirmed that were and that the pass does not find |
| HiddenEvidence.SweptWrites | src/skillrewind/lineage/candidates.py:157-178 | A recovery pass writes the inferred class over every pair it finds plausible into a listed artifact outside the closure, whatever was there, and touches no other |
| HiddenEvidence.DecisionsConfirm | src/skillrewind/revocation/service.py:420-440 | Replaying pairs decided once each leaves exactly the confirmed ones confirmed, next to those no decision is about |
| HiddenEvidence.DecisionsWrite | src/skillrewind/replay/service.py:148-174 | A replayed pair gets the class of its verdict, confirmed, rejected or unresolved, and a pair not replayed keeps what it had |
| HiddenEvidence.CandidatesFound | src/skillrewind/revocation/service.py:376-392 | Every candidate is a pair a recovery pass finds, so a repeated pass takes its verdict back |
| Track.BaseConfirms | src/skillrewind/revocation/service.py:366-442 | The planner of a fresh run sees exactly the older evidence recovery does not find and the pairs replay confirms |
| Track.AtPending | src/skillrewind/revocation/service.py:490-519 | The undisturbed run deals with its targets one after the other, skipping none |
| Track.OriginOnTrack | src/skillrewind/revocation/service.py:356-364 | A fresh event whose plans rest on lasting evidence is on the way to its own foreseen end |
| TrackSteps.TrackHidden | src/skillrewind/lineage/candidates.py:157-178 | Taking back or confirming evidence, as recovery and replay do, keeps the store on the way to the undisturbed end |
| TrackSteps.TrackPlan | src/skillrewind/revocation/service.py:481-492 | Whatever deaths came before, rebuild begins on the store the undisturbed run begins it on |
| TrackSteps.AttemptHere | src/skillrewind/rebuild/planner.py:34-92 | On the way, at whatever step the target in hand was left, the code makes the plan and the attempt of the undisturbed run and leaves the same store, aliases aside |
| TrackSteps.TrackWork | src/skillrewind/rebuild/service.py:59-124 | A build or publication cut short is a stretch of the attempt the undisturbed run makes |
| TrackSteps.TrackRecord | src/skillrewind/revocation/service.py:498-519 | Recording the attempt takes the run one target on, in the event as in the store |
| Frames.CutTwice | src/skillrewind/rebuild/service.py:59-94 | Building again over a build cut short leaves what one build leaves, at any two points of interruption |
| Frames.ResumeSame | src/skillrewind/rebuild/planner.py:34-92 | Planning, building and judging a target again on whatever a crash left of its first attempt comes to the same plan and verdict |
| Frames.ResumeLike | src/skillrewind/rebuild/service.py:24-124 | A resumed attempt leaves the store of the undisturbed one, aliases aside |
| Frames.AttemptedFrame | src/skillrewind/rebuild/service.py:24-124 | An attempt touches no standing but that of its successor, and of the original once it is published |
| Attempts.BuiltFacts | src/skillrewind/rebuild/service.py:59-94 | A build makes exactly the successor forbidden and adds support edges only from its plan |
| Attempts.BuiltMeans | src/skillrewind/rebuild/service.py:59-94 | A finished build: the successor in quarantine for the event, derived from the clean supports by the recipe of the original, recorded as rebuilt from it, as replacing it and as supported by each of them, and nothing else changed |
| Attempts.AttemptMeans | src/skillrewind/revocation/service.py:493-519 | An attempt is unavailable exactly without a derivation, an artifact or a recipe; else it passes exactly when no canary key shows and no support kept or recorded is revoked, quarantined or the successor itself |
| Attempts.AttemptedAliases | src/skillrewind/rebuild/service.py:109-124 | A successful attempt leaves the alias of the original with the successor and with nobody else and every other alias as it was; any other attempt moves none |
| Attempts.AttemptAllFacts | src/skillrewind/revocation/service.py:490-519 | The queue of attempts leaves every target done, none both rebuilt and reported, none rebuilt twice |
| Attempts.AttemptAllResume | src/skillrewind/revocation/service.py:487-492 | Re-running the queue skips every target already rebuilt or given up |
| Attempts.SameTablesAll | src/skillrewind/revocation/service.py:490-519 | The queue depends on nothing an event or a log row records |
| RevocationLaws.UndecidedResume | src/skillrewind/revocation/service.py:418-423 | A resumed replay loop has exactly the rest of the original work to do |
| RevocationLaws.AddMissingResume | src/skillrewind/revocation/service.py:454-456 | Re-running the confirmed loop skips what is already quarantined |
| RevocationLaws.SettleResume | src/skillrewind/revocation/service.py:466-469 | Re-running the unresolved loop skips every target already dealt with |
| RevocationLaws.SettleFacts | src/skillrewind/revocation/service.py:466-479 | The unresolved loop covers every open target, quarantines only such targets, and keeps quarantined and reported apart |
| RevocationLaws.SettledFollows | src/skillrewind/revocation/service.py:454-479 | The two loops of the quarantine stage together follow the policy, whatever was listed and reported before |
| RevocationLaws.AllDecided | src/skillrewind/revocation/service.py:420-440 | Every candidate not decided before ends up decided as its replay says |
| Request.RequestRevocation | src/skillrewind/revocation/service.py:33-76 | A known key returns the stored event and changes nothing; a new one leaves an event in candidate recovery with the roots sorted, its log the path there, and outside forensic mode every root revoked, every other member of the closure quarantined with a row for the event, and nothing else touched; however it ends, nothing outside the closure is touched |
| Request.ApplyBarrier | src/skillrewind/revocation/barrier.py:15-50 | The members of the recorded closure are revoked if roots and quarantined with an active row otherwise, nothing else changes; a missing member or a crash leaves each member barred, not barred, or with only its row written, and nothing outside the closure touched |
| Request.BarBars | src/skillrewind/revocation/barrier.py:36-43 | The barrier loop gives each artifact and row exactly its barred value, over any closure |
| Pipeline.TransitionTo | src/skillrewind/revocation/state_machine.py:25-51 | Same state is a no-op, a move outside the table raises and changes nothing, a legal one saves the event and then the log row |
| Pipeline.AdvanceTo | src/skillrewind/revocation/service.py:332-342 | Nothing once the target is reached or passed, else the transition |
| Pipeline.Proceed | src/skillrewind/revocation/service.py:332-342 | A pipeline move keeps the run wherever it dies, keeps an unbroken log unbroken, and raises only for an illegal move |
| Pipeline.MoveKept | src/skillrewind/revocation/state_machine.py:25-51 | Leaving a stage that has nothing more to say keeps the run at both of its commits |
| Pipeline.RecordedDescendants | src/skillrewind/lineage/closure.py:24-27 | Exactly the nodes reachable from the roots over recorded edges, ascending; an error exactly for no roots |
| Pipeline.RecoverStage | src/skillrewind/revocation/service.py:366-394 | The event gets the closure and every plausible pair outside it; the only other trace is hidden evidence set back to inferred for every pair found plausible |
| Pipeline.RecoverCandidates | src/skillrewind/lineage/candidates.py:134-187 | Each plausible candidate's hidden edge becomes inferred whatever it was; nothing else changes |
| Pipeline.ClosureUnique | src/skillrewind/lineage/graph.py:72-72 | The closure as listed is determined by its members |
| ReplayStage.ReplayAll | src/skillrewind/revocation/service.py:412-442 | The loop ends with exactly the decisions foreseen, however many an earlier process had saved, and the hidden evidence is that of the decisions it added |
| ReplayStage.RunPairedReplay | src/skillrewind/replay/service.py:148-174 | The verdict of the deterministic replay, and the evidence class that records it on the hidden edge |
| ReplayStage.Judge | src/skillrewind/revocation/service.py:424-436 | One candidate is decided as not selected, without a derivation, or by its replay, and only an executed replay leaves evidence |
| ReplayStage.ReplayedNext | src/skillrewind/revocation/service.py:420-440 | Each step of the loop decides the next undecided candidate once and leaves the rest |
| QuarantineStage.QuarantineConfirmed | src/skillrewind/revocation/service.py:454-465 | Every confirmed target ends up in the quarantined list, none in forensic mode; exactly the targets that joined the list are quarantined in the store, and nothing else in it changes |
| QuarantineStage.SettleUnresolved | src/skillrewind/revocation/service.py:466-479 | The policy, the severity and the setting decide what becomes of every open replay, as spelled out for the outcome, and the stage reports nothing else; re-running it would change nothing, and exactly the targets that joined the list are quarantined in the store |
| QuarantineStage.QuarantineArtifact | src/skillrewind/quarantine/service.py:10-18 | Row, then status; only the target is touched |
| QuarantineStage.ConfirmedSettles | src/skillrewind/revocation/service.py:454-465 | Quarantining the next confirmed target does not change where the stage ends |
| RebuildStage.RebuildArtifact | src/skillrewind/rebuild/service.py:24-106 | Nothing is written without a derivation, an original and a recipe; otherwise the successor is housed in quarantine, derived from the clean supports and linked to the original; a build cut short has touched nothing else, and a finished one has passed every step of it |
| RebuildStage.PublishSuccessor | src/skillrewind/rebuild/service.py:109-124 | Finished, the successor is active without a row, holds the alias of the original, which nobody else does, and the original is superseded by it; every other alias is as it was, and none has moved if the original has none |
| RebuildStage.ProcessTarget | src/skillrewind/revocation/service.py:490-519 | One target: the event records exactly what the attempt on the store comes to, the store is what that attempt leaves, a finished attempt has passed every step of its build, and the run is kept wherever it dies |
| RebuildStage.RebuildTargets | src/skillrewind/revocation/service.py:482-523 | Store and event end as the queue of attempts foreseen from where the loop began, each attempt made on the store the ones before it left; every newly rebuilt entry comes from an attempt that passes on a store the process held, and every step of every target was passed |
| RebuildStage.SuiteAgrees | src/skillrewind/verification/suites.py:102-140 | The suite over the finished build passes exactly when no canary shows and no clean support, the successor included, is revoked or quarantined |
| Publication.SourcedSafely | src/skillrewind/verification/suites.py:102-120 | In every run, every successor was built from supports that existed, had no replay-confirmed edge, were free of quarantine or waived, and were neither revoked nor quarantined |
| Publication.WaivedSupportFails | src/skillrewind/rebuild/planner.py:57-62 | A waiver lets a quarantined support into the plan and the suite then fails it |
| Publication.PublishedStore | src/skillrewind/rebuild/service.py:109-124 | After a successful attempt the successor is served, the original superseded by it, and no recorded support of the successor is forbidden |
| Publication.PublicationStands | src/skillrewind/revocation/service.py:490-519 | A publication survives the attempt on another target exactly when that attempt spares it: builds nothing over its original or, failing, over its successor or one of its supports, and does not replace its successor |
| Publication.WorkPublished | src/skillrewind/rebuild/service.py:59-124 | Among targets whose successors are unrelated, work on one, whole or cut short, leaves every earlier publication standing |
| Publication.RecordPublished | src/skillrewind/revocation/service.py:508-512 | Recording a successful attempt adds one standing publication |
| Exposure.PlanSameIff | src/skillrewind/rebuild/planner.py:64-69 | Weaker evidence leaves a plan alone exactly when every support excluded for its evidence keeps a confirmed edge |
| Exposure.ResumedPlanIff | src/skillrewind/lineage/candidates.py:157-178 | A resumed call plans as the interrupted one would have exactly when no support excluded for its evidence loses its last confirmed edge to the re-run recovery |
| Exposure.PlanStableIff | src/skillrewind/rebuild/planner.py:64-69 | A plan is safe from every re-run exactly when no support is excluded for its evidence |
| Exposure.EndsDiffer | src/skillrewind/revocation/service.py:356-364 | If the next call attempts the target in hand otherwise than the undisturbed run, the two summaries differ, whatever comes after |
| Exposure.DieThere | src/skillrewind/revocation/service.py:356-364 | For every target and every step of its build there is a process that dies exactly there, and this is what it leaves |
| Exposure.DieAt | src/skillrewind/revocation/service.py:356-364 | From a fresh event: an undisturbed run, and one whose first process dies where it takes up a target; they end differently if the attempt on it is another one under the rescanned evidence |
| Probes.LastingAt | src/skillrewind/lineage/candidates.py:157-178 | Evidence lasts exactly when it confirms a pair and no place where a process can die up to the end of the target lets recovery take it back |
| Probes.AgreesIff | src/skillrewind/rebuild/planner.py:34-92 | After deaths at every earlier step the next call plans alike exactly when every support excluded for its evidence keeps some |
| Probes.Probe | src/skillrewind/revocation/service.py:356-364 | Processes dying one step further each time: some survivor plans a target differently exactly when some plan of the undisturbed run excludes a support on evidence that recovery takes back |
| Probes.ChangedPlanShows | src/skillrewind/rebuild/planner.py:75-82 | A changed plan of a target the undisturbed run rebuilds changes the attempt on it |
| Probes.DeathsMatter | src/skillrewind/revocation/service.py:356-364 | Either no series of deaths can change the end, or one is found whose survivor plans a target differently; it ends differently if the undisturbed run rebuilds that target or the attempt is otherwise another one |
| ExposedRun.RequestExposed | src/skillrewind/revocation/service.py:33-76 | The store of the counterexample is what a request leaves |
| ExposedRun.DeathChangesTheEnd | src/skillrewind/revocation/service.py:356-364 | From it an undisturbed run rebuilds the target; a process that dies taking it up and a second one that lives report it with a failed verification |
| Planner.PlanRebuild | src/skillrewind/rebuild/planner.py:34-92 | No derivation is an error; otherwise the deduplicated pool split by screening, in the source's order of checks |
| Planner.PlanMeans | src/skillrewind/rebuild/planner.py:39-71 | A plan keeps each recorded input and context artifact that screens clean, once, and excludes every other for the first thing wrong with it |
| Planner.ScreenMeans | src/skillrewind/rebuild/planner.py:43-71 | In this order: missing, revoked, in quarantine without an unrevoked and unexpired rebuild-support waiver, replay-confirmed, clean |
| Planner.SplitPartitions | src/skillrewind/rebuild/planner.py:39-71 | Clean and excluded partition the pool |
| Planner.SplitCongruent | src/skillrewind/rebuild/planner.py:43-71 | A plan depends on nothing but the screening of its own pool |
| Planner.DedupIsDistinct | src/skillrewind/rebuild/planner.py:39-41 | The pool has no duplicates |
| Planner.RunSuite | src/skillrewind/verification/suites.py:81-140 | Pass exactly when no canary key is observed, no recorded clean support is revoked or quarantined, and the utility reaches the threshold share of the baseline if there is one to compare; fail exactly when no check passes |
| StateMachine.LogIsBounded | src/skillrewind/domain/enums.py:109-142 | However often the process died, at most nine transitions are recorded |
| StateMachine.PathClimbs | src/skillrewind/domain/enums.py:109-142 | An unbroken log strictly climbs the stage order |
| StateMachine.TableMeans | src/skillrewind/domain/enums.py:109-142 | A run that is not over may fail; else it moves to the next stage, but for cancelling a request, skipping the barrier, going from recovery straight to quarantine, and completing from recovery, quarantine or verification |
| StateMachine.StagesInOrder | src/skillrewind/revocation/service.py:312-342 | The nine stages follow one another in the stated order and every other state comes after them |
| StateMachine.NoCancellationAfterBarrier | src/skillrewind/domain/enums.py:109-142 | Once any other transition is recorded no later row cancels, in any log crashes leave; an unbroken one then never ends cancelled |
| StateMachine.AdvanceNeverStuck | src/skillrewind/revocation/service.py:332-342 | Moving to the next stage from a state the pipeline persists never raises |
| Store.Workspace.Commit | src/skillrewind/persistence/service/workspace.py:252-259 | A commit takes effect or the process died before it |
| Lineage.Closure | src/skillrewind/lineage/graph.py:56-72 | Exactly the reachable nodes, ascending, on any graph, with or without the roots; an error exactly for no roots |
| Lineage.Bfs | src/skillrewind/persistence/service/repositories.py:544-565 | Exactly the nodes within the depth bound of the roots, ascending |
| Lineage.CompareSearches | src/skillrewind/persistence/service/repositories.py:576-585 | Without a bound the depth-bounded search and the closure return the same list |
| Lineage.BuildAdjacency | src/skillrewind/persistence/service/repositories.py:567-574 | The adjacency lists represent exactly the edges, in either direction, each list ascending |
| Lineage.ReachableGrows | src/skillrewind/lineage/graph.py:56-72 | More edges never reach less |
| Lineage.HasCycleThrough | src/skillrewind/persistence/service/repositories.py:604-605 | Never true |
| Reachability.Finished | src/skillrewind/lineage/graph.py:64-69 | A search that has expanded everything has seen exactly the reachable nodes |
| Reachability.DepthIsDistance | src/skillrewind/persistence/service/repositories.py:550-561 | The depth recorded for a node is its distance from the roots |
| Reachability.LayerComplete | src/skillrewind/persistence/service/repositories.py:553-561 | While a layer is expanded, everything nearer is known |
| Paths.ShortestPath | src/skillrewind/lineage/graph.py:104-133 | None exactly when the target is unreachable, otherwise a path of minimum length |
| Paths.Reconstruct | src/skillrewind/lineage/graph.py:121-126 | Walking the parent pointers ends at the source and yields a path of the recorded length |
| Cycles.HasCycle | src/skillrewind/lineage/graph.py:88-102 | True exactly when some node lies on a directed cycle |
| Cycles.Visit | src/skillrewind/lineage/graph.py:92-100 | A true visit has found a cycle; a false one leaves its node black and no black node on a cycle |
| ServingSafety.ResolutionIsSafe | src/skillrewind/persistence/service/workspace.py:473-491 | After any sequence of operations an alias resolves to nothing, to an active artifact without an active row, or to a quarantined one under an unexpired serving waiver |
| ServingSafety.ResolvesExactly | src/skillrewind/persistence/service/workspace.py:473-491 | An alias resolves to an artifact exactly when it is the newest active or quarantined one under it and, if it has an active row, an unrevoked and unexpired serving waiver covers it |
| ServingSafety.RunKeeps | src/skillrewind/quarantine/service.py:10-18 | After any sequence of operations quarantined implies an active row and active implies none exactly when no operation wrote a row for an artifact that was not there |
| ServingSafety.StepKeeps | src/skillrewind/revocation/barrier.py:36-43 | One operation keeps every quarantined artifact backed by a row, and keeps status and row consistent exactly when it writes no row for a missing artifact |
| ServingSafety.RunBacked | src/skillrewind/persistence/service/workspace.py:283-316 | After any sequence of operations every quarantined artifact has an active row |
| ServingSafety.RevokedUntilLifted | src/skillrewind/revocation/barrier.py:37-43 | A revoked artifact stays revoked under an operation exactly when the operation does not lift it |
| ServingSafety.RevokedIsNeverServed | src/skillrewind/persistence/service/workspace.py:482-485 | Until it is lifted, no waiver makes a revoked artifact resolvable |
| ServingSafety.NewestHolds | src/skillrewind/persistence/service/repositories.py:173-187 | The lookup returns the active or quarantined holder that comes last in creation order, or none when there is none |
| ServingSafety.ReleaseQuarantine | src/skillrewind/quarantine/service.py:21-28 | Row off, then active; a crash in between leaves only the row off |
| ServingSafety.WaiversLast | src/skillrewind/quarantine/waivers.py:65-105 | Over any sequence of operations a waiver keeps its terms, and is revoked exactly when it was or a revocation of it is among them |
| ServingSafety.WaiversGiven | src/skillrewind/quarantine/waivers.py:65-105 | A waiver that was not there is there exactly when one of the operations gives it |
| JobQueue.LeasesAndAttempts | src/skillrewind/jobs/queue.py:128-300 | Over every interleaving: leased exactly when owner and expiry are set; attempts are the claims in the log and exceed the allowance by no more than the reaped leases |
| JobQueue.ClaimsAreSeparated | src/skillrewind/jobs/queue.py:128-158 | Between two claims of a job there is a retryable failure or a reaped lease of it |
| JobQueue.BackoffIsRespected | src/skillrewind/jobs/queue.py:254-282 | No claim before the base delay, doubled once for each earlier attempt, or the ceiling has passed since the last retryable failure, for any clock readings; and the wait set is that delay and at most the jitter more |
| JobQueue.DelayGrows | src/skillrewind/jobs/queue.py:45-47 | The first delay is the base or the ceiling, and every further one is twice the one before until the ceiling |
| JobQueue.OnlyReportsRevive | src/skillrewind/jobs/queue.py:217-271 | A finished job changes status only by a report on it, and stops being finished exactly for a retryable failure with attempts left |
| JobQueue.StepKeeps | src/skillrewind/jobs/queue.py:82-300 | Every operation keeps the invariant of every job and the uniqueness of idempotency keys |
| JobQueue.Queue.Enqueue | src/skillrewind/jobs/queue.py:82-124 | A taken non-empty key returns the job that holds it and changes nothing; otherwise one new queued job, due at once and not yet tried |
| JobQueue.Queue.Claim | src/skillrewind/jobs/queue.py:128-158 | Leases a queued job of a wanted kind whose time has come, than which no other such job has a higher priority, or the same and is older; none exactly when there is none |
| JobQueue.Queue.Heartbeat | src/skillrewind/jobs/queue.py:160-196 | Succeeds exactly for the current owner of a leased job, extends its lease, and keeps and reports the progress it was told |
| JobQueue.Queue.RequestCancellation | src/skillrewind/jobs/queue.py:204-215 | Marks the job exactly when it exists and is not finished |
| JobQueue.Queue.Complete | src/skillrewind/jobs/queue.py:217-231 | Any worker's report finishes an existing job and clears its lease |
| JobQueue.Queue.Fail | src/skillrewind/jobs/queue.py:233-271 | Waits the doubled base delay, at most the ceiling, exactly when retryable with attempts left, else fails for good |
| JobQueue.Queue.RequeueAfterBackoff | src/skillrewind/jobs/queue.py:273-282 | Requeues exactly the waiting jobs whose time has come |
| JobQueue.Queue.ReapExpiredLeases | src/skillrewind/jobs/queue.py:284-300 | Requeues exactly the leased jobs whose lease has run out, counts them, and leaves every other job alone |
| JobQueue.ReapedRuns | src/skillrewind/jobs/queue.py:284-300 | Reaping is a run of enabled steps |
| JobQueue.RunOnce | src/skillrewind/jobs/worker.py:82-91 | One poll is an interleaving of enabled steps that ends in the claim and the report of the job it returns, which is settled as its handler ended; it returns none exactly when nothing is due |
| JobQueue.ReportOn | src/skillrewind/jobs/worker.py:118-157 | How a handler ends decides how the job is settled; unexpected errors count as retryable |
| ServiceReplay.RunServiceReplay | src/skillrewind/replay/service_mode.py:108-241 | Whatever repetitions are already saved and wherever it dies, an outcome is the one of an undisturbed run with every repetition it rests on saved; no outcome means cancelled |
| ServiceReplay.ResumeUntilDone | src/skillrewind/replay/service_mode.py:108-241 | Any crashes, then a full run: the verdict, fidelity and effect of one undisturbed run and of the one-shot replay |
| ServiceReplay.RunPairedReplay | src/skillrewind/replay/service.py:48-103 | The one-shot loop computes the same outcome |
| ServiceReplay.VerdictMeans | src/skillrewind/replay/service_mode.py:211-241 | A runner error gives runner failure with the error of the first failing repetition; else low fidelity comes first and too few repetitions of a repeated replay second; then confirmed exactly when some key differs between the two vectors of the last repetition, an absent key read as null, and rejected exactly when none does; the effect is the share of repetitions with a difference |
| ServiceReplay.AddKeeps | src/skillrewind/replay/service_mode.py:149-167 | A repetition read back counts as the one that was run |
| Derivations.AlwaysInStep | src/skillrewind/persistence/service/repositories.py:322-461 | After any interleaving there is an edge exactly for each recorded input of a derivation with an output, from the parent to that output with the relation of the input; none is a self-edge, and an output once set never changes |
| Derivations.OrderDoesNotMatter | src/skillrewind/persistence/service/repositories.py:322-422 | Inputs first or output first: the same store |
| Derivations.EdgesDetermined | src/skillrewind/persistence/service/repositories.py:257-265 | Inputs and outputs determine the edges |
| Derivations.OutputCompletes | src/skillrewind/persistence/service/repositories.py:389-422 | Setting the output completes every edge of the derivation, whatever a crash left out |
| Derivations.OutputMeans | src/skillrewind/persistence/service/repositories.py:389-422 | Setting an output is refused for an unknown derivation, an unknown artifact, one that is an input already and another output than the one set, in this order, and changes nothing then |
| Derivations.AddedMeans | src/skillrewind/persistence/service/repositories.py:322-387 | The inputs before the first wrong one are recorded, each once, and what is wrong with that one is the answer |
| Derivations.RetryRepairsNothing | src/skillrewind/persistence/service/repositories.py:350-360 | A retried add_inputs passes over rows already there and changes nothing |
| Derivations.Repository.AddInputs | src/skillrewind/persistence/service/repositories.py:322-387 | The inputs before the first bad one are recorded with their edges, then its error; a crash leaves every edge backed |
| Derivations.Repository.SetOutput | src/skillrewind/persistence/service/repositories.py:389-422 | Refuses unknown artifacts, self-edges and a different output; otherwise the output and every edge |
| Derivations.Repository.MaterializeEdge | src/skillrewind/persistence/service/repositories.py:424-461 | Adds the edge from the parent to the output with the relation of the input, once, and nothing else |
| CandidateScan.CandidatePool | src/skillrewind/lineage/service_recovery.py:47-73 | The page loop yields the active artifacts of the wanted kind that are not known yet, ascending, each once |
| CandidateScan.SelectResumes | src/skillrewind/persistence/service/repositories.py:136-144 | Selecting below a row's key leaves exactly the rows after it, ties on creation time included |
| CandidateScan.PageMeans | src/skillrewind/persistence/service/repositories.py:127-151 | A page is the first rows after the cursor, as many as asked for but at least one and at most five hundred |
| CandidateScan.RunCandidateRecovery | src/skillrewind/lineage/service_recovery.py:107-234 | A run that ends has scored exactly the pool, each member with its own score, reports the rows already scored plus the new candidates, and has its checkpoint past the last candidate it scored; a cancelled one stops at its checkpoint |
| CandidateScan.ResumeUntilDone | src/skillrewind/lineage/service_recovery.py:120-126 | Any crashes, then a full run: exactly one row per pool member |
| CandidateScan.ReportedCountIff | src/skillrewind/lineage/service_recovery.py:139-207 | The reported count is that of an undisturbed run exactly when every row scored before was a candidate, and larger otherwise |
| EditDistance.SequenceEditDistance | src/skillrewind/features/operational.py:15-27 | The two-row loop computes the recursive edit distance |
| EditDistance.DistanceIsLeast | src/skillrewind/features/operational.py:15-27 | The distance is the least number of single-call edits |
| EditDistance.Triangle | src/skillrewind/features/operational.py:15-27 | Triangle inequality |
| EditDistance.Symmetric | src/skillrewind/features/operational.py:15-27 | Symmetry |
| EditDistance.ZeroIffEqual | src/skillrewind/features/operational.py:15-27 | Zero exactly for equal sequences |
| EditDistance.Bounds | src/skillrewind/features/operational.py:15-27 | Between the difference and the maximum of the lengths |
| EditDistance.SimilarityInUnit | src/skillrewind/features/operational.py:37-56 | Each of the three scores lies between zero and one, is symmetric, and is one exactly for equal non-empty sequences, the set score for equal name sets; the first falls by one part in the longer length per edit, the second is the share of common names, and they weigh six to four |
| AuditLog.Log.Append | src/skillrewind/audit/log.py:94-129 | Continues the last row; a log is chained after an append exactly when it was before |
| AuditLog.Log.Verify | src/skillrewind/audit/log.py:154-195 | Accepts exactly the chained logs, and otherwise names the first row that is out of sequence, does not continue its predecessor, or does not match its hash, in this order |
| AuditLog.HeadDetermines | src/skillrewind/audit/log.py:154-195 | Two chained logs with the same head are the same log |
| AuditLog.TamperingShows | src/skillrewind/audit/log.py:154-195 | Any change to a chained log moves the head or fails verification; truncation passes verification and moves the head |
| RateLimit.RateLimiter.Allow | src/skillrewind/api/ratelimit.py:33-50 | Admits, refuses with the time until a token is there, or divides by a zero rate; only the key's bucket changes |
| RateLimit.WindowBound | src/skillrewind/api/ratelimit.py:33-50 | In any window of any run a key is admitted at most capacity plus rate times duration times, a capacity below one counting as one |
| RateLimit.BurstIsAdmitted | src/skillrewind/api/ratelimit.py:33-50 | The first capacity requests of a key are all admitted, however fast they come and whatever other keys do |
| RateLimit.SpacedIsAdmitted | src/skillrewind/api/ratelimit.py:33-50 | A request that comes when one token has been refilled since the last one of its key is admitted |
| RateLimit.RetryIsAdmitted | src/skillrewind/api/ratelimit.py:49-50 | A refused request that waits as told is admitted exactly when the capacity is at least one |
| Seqs.AscendingDetermined | src/skillrewind/lineage/graph.py:72-72 | Order and membership fix a sorted list |

## Left out

- CrashRuns.CompareRuns: aliases are not part of the summary, and a crash between two alias commits loses one.
- Probes.DeathsMatter: a changed plan whose attempt fails verification as before, or is unavailable as before, goes unseen in the summary; it is seen in the plan and in the successor left in quarantine.
- Revocation.RunRevocation: the audit row at the end is not modelled, and no baseline utility is passed to the suite, as in the source.
- ReplayStage.RunPairedReplay: the replay record is not modelled, and a crash between the replay and the saved decision repeats the replay; its verdict is deterministic here.
- RebuildStage.ProcessTarget: verification reports are reduced to pass, partial or fail, and error texts to the kind of error.
- Publication.WorkPublished: for whole runs, that publications stand is stated for targets whose successors are no targets, no supports of targets and one target's each, which a second event over the same artifacts can break; `Publication.PublicationStands` is the exact condition for one attempt, and how each successor was built is stated for every run.
- ServingSafety.RunKeeps: each operation is one step; between the commits of a quarantine or a release a row and a status can briefly disagree.
- ServingSafety.ResolutionIsSafe: the HTTP resolve handler, which lets a waiver override a revoked status, is not modelled.
- JobQueue.StepKeeps: a status change and its event row are one step, and a claim is row-exclusive, as with `SKIP LOCKED`.
- JobQueue.RunOnce: no other worker acts on the queue while the handler runs; `JobQueue.LeasesAndAttempts` covers every interleaving.
- CandidateScan.RunCandidateRecovery: the pool is the same in every attempt of a run, and progress callbacks are not modelled.
- EditDistance.SimilarityInUnit: over reals, without rounding.
- Identifiers are integers, since the source only compares and sorts them; blank identifiers and stripping of roots are not modelled. An event's identifier and its idempotency key are one key, and a pair of identifiers is compared as a pair rather than as one joined text.
- The store keeps recorded edges and hidden-influence edges in separate tables: no hidden-influence edge is ever recorded evidence.
- Within one revocation run no other writer changes the store, and the time against which waivers expire is fixed.
- Candidate scoring, replay selection, the replay verdict, recipes and content addressing are deterministic function parameters.
- The order in which one recovery writes its hidden edges is the order of the sorted results.
- `build_revocation_preview` only reads.
- The Lite-mode store, HTTP routes, authentication, CLI, event streams, migrations, sandboxed runners, feature extraction, content-addressed files, capture and redaction, and signatures.
