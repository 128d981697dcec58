# Verification of the issue-agent scheduler

A Dafny model of the control plane of `gitlab_issue_agent` and of the protocol by which it
starts and stops agents on execution hosts. The program polls GitLab for issues, runs one
coding agent per issue, locally or over SSH, and keeps one durable record per issue. Its
central promise is that an issue never has two agents at once, even though the scheduler,
the SSH connection and the remote helpers may die at any moment and requests may arrive
arbitrarily late. That promise, and how far the code keeps it, is what is proved here.

## How the model is built

From the bottom up:

- `RemoteAttempt`, `RemoteTheorems`: one attempt on one execution host as a state machine:
  the lease file, the cancellation tombstone, the prepare helper, the run helper, the agent
  and any number of cancel helpers. Every file operation, process start, signal and check is
  one step, and the steps of all parties interleave freely. An inductive invariant gives
  lease coverage and the finality of a confirmed cancel; `CanStillRun` and `CrashSafe` are
  shown to be exact, in both directions.
- `RemoteRunner`: the same operations as the source writes them, `Prepare`, `Run` and
  `Cancel` being methods of an object that updates lease, tombstone and process maps. Between
  any two effects the method calls `Interfere`, which plays an arbitrary schedule of the rest
  of the host, so the contracts hold under every interleaving.
- `ProcessGuard`: birth identities under pid reuse, the tree kill and the local reap.
- `IssueRecords`, `History`: the durable record and what each save writes into it.
- `ControlPlane`: one issue with its record, its in-memory task and all attempts ever started
  for it on any host, each remote attempt being a `RemoteAttempt`. A crash of the scheduler may
  fall between any two saves, a task may die at the reap of its own exception handler, and a
  request it leaves behind may still save the record it holds. A pass of the polling loop loads
  the record in one step and saves its copy, changed, in later ones; the task or such a request
  may save its own in between.
- `Containment`, `TaskContainment`, `LoopContainment`, `ContainmentSteps`: only the attempt the
  record names can have an agent, and while it can, the record leads every reap to it.
  `ControlInvariant` adds the well-formed record and its counters, and `ControlTheorems` draws
  the conclusions for all runs.
- `Progress`: the other side of safety: no issue is ever stuck. `AttemptCount`: no attempt is
  counted twice.
- `Hazards`, `HazardWitnesses`: where the code does not keep its promise (see below).
- `World`: all issues at once under one scheduler process.
- `Recovery`, `Passes`, `Placement`, `Orchestrator`: cold start, the reconciliation passes,
  placement, dispatch, the end of an attempt and the exception handlers as methods of the
  scheduler object over its records and its running map; `Refinement` proves that what those
  methods save is a run of `ControlPlane`, and `Reaping` that a reap, performed on the host or on
  the process table, answers only what the machine allows.
- `StateStore`, `Identity`: the state files as a map, and the strings that name issues.
- `Timing`, `Summary`, `SessionSearch`, `AgentRequest`: backoff and fairness arithmetic over
  the reals, the streaming output summary, the search for a session id, and native resume.

A run is a sequence of events; an event that cannot happen changes nothing. `Exec` gives the
state after a run.

## Lapses and hazards

Seven kinds of steps can lose track of a live agent. They are kept in the model as the code has
them. `ControlPlane.Lapse` gives the circumstances, which the code could test before the step,
and a *hazard* is a lapse that meets an executor that may run and loses track of it. A run is
*safe* when it meets no hazard and *orderly* when it meets no lapse; every orderly run is safe.
`Hazards.HazardsAreExact` shows that, among the steps modelled, the hazards are exactly those
after which a second live agent for the same issue can appear, from any state of a safe run;
`HazardWitnesses` shows that each of them is met by some run of a new issue.

1. *Placement overwrite* (`orchestrator.py:278-292`). `tick` marks any record whose labels are
   invalid as blocked for placement, also one that is blocked because an executor may still be
   running. Such a record is no longer reaped and becomes ready once the labels are fixed.
   Design invariant 9 of `docs/ARCHITECTURE.md` says otherwise.
2. *Stale copy of the waiting pass* (`orchestrator.py:846-883`). `_reconcile_waiting` writes back
   records it loaded before it awaited the tracker. It can release a record that was blocked
   meanwhile, or write back one that lacks the identity of a local process recorded meanwhile.
3. *Release of a RUNNING record without a task* (`orchestrator.py:848-876`). When the reap in an
   exception handler of `_execute` raises, or is cancelled, the handler saves nothing
   (`orchestrator.py:520-580`; `SSHAgentBackend.reap` catches only its own transport error,
   `remote_execution.py:102-118`). The record stays RUNNING without a task, the scheduler stays
   up, and `_reconcile_waiting` releases it without a reap if its issue is no longer active.
   While the issue is active, the dispatch loop reaps it, which is safe.
4. *Stale copy of the blocked pass* (`orchestrator.py:885-945`, `orchestrator.py:164-227`).
   `_reconcile_blocked` loads a blocked record, awaits its reap and the tracker, and saves the
   loaded copy after each, without a look at the running map. A copy of an earlier attempt's
   record can so be saved, as blocked without a process or as READY, over the record of a later
   attempt that got to run meanwhile. It takes a request left behind to put the earlier record
   back on disk, which is a lapse and need not be a hazard itself. The reap of the dispatch loop
   (`orchestrator.py:268-275`) saves a copy in the same way, but only while the issue has no task
   and nothing has been dispatched since the copy was loaded; it can be stale and never loses an
   executor.
5. *Request left behind* (`remote_execution.py:170-229`). When the reap inside
   `SSHAgentBackend.run` itself raises, the `run` request is not settled. If it hears of its
   process later, the callback (`orchestrator.py:485-487`) saves the record of that attempt as
   its handler left it, also over the record of a later attempt. If the scheduler dies before
   the later attempt saves its record again, its executor is forgotten.
6. *Local spawn window* (`backend.py:114-142`). Between the spawn of a local agent and the save
   of its identity, the death of the scheduler leaves no evidence, and a reap without evidence
   is confirmed (`execution.py:49-50`).
7. *Helper crash* (`remote_runner.py:301-320`). If the run helper dies while its agent is known
   only through it, a cancel helper takes the helper's death for the agent's. This is not only
   the window between the spawn and the lease swap: when a cancel helper has already read the
   helper's identity from the lease, a crash after the swap has the same effect.
   `docs/ARCHITECTURE.md` (lines 104 and 116) presents the swap as closing the window.

Crashes of the scheduler, handlers that die, lost connections, late requests, unconfirmed reaps,
helper crashes elsewhere, and lapses after which nothing can run any more, such as the everyday
stale write of a record whose task has just finished, are all part of safe runs.

One more property fails of the code in an orderly run: the process that a request left behind
records in a blocked record is forgotten again when a reap that was under way is not confirmed
and saves the copy it was given. `ControlTheorems.EvidenceUntilDropped` says that this is the only
way a blocked record loses its process before a reap is confirmed, and
`HazardWitnesses.EvidenceIsDropped` gives the run.

## Model

| member | source | states |
|---|---|---|
| RemoteAttempt.StepKeepsInv | src/gitlab_issue_agent/remote_runner.py:154-320 | the flag protocol's invariant (lease contents, tombstone before every look at the lease, what a cancel helper may hold while an agent runs or may be spawned) is kept by every step of prepare helper, run helper, agent and cancel helpers, unsafe helper crashes excepted |
| RemoteTheorems.LeaseCoversLiveAgent | src/gitlab_issue_agent/remote_runner.py:246-320 | in every run of a new attempt a live agent has a lease that names the agent itself or its living parent helper |
| RemoteTheorems.ConfirmedCancelIsFinal | src/gitlab_issue_agent/remote_runner.py:199-233 | once some cancel helper answered `confirmed_safe`, with a lease or without one, no continuation has a live agent, and an agent that was never spawned never will be, even if the `run` request arrives afterwards |
| RemoteTheorems.CanStillRunIsExact | src/gitlab_issue_agent/remote_runner.py:246-320 | an attempt whose `run` was sent satisfies `CanStillRun` if and only if some continuation has a live agent, so "stopped" means stopped in every future and nothing weaker |
| RemoteTheorems.CrashSafeIsExact | src/gitlab_issue_agent/remote_runner.py:301-320 | a crash of the run helper is harmless if and only if, when the agent lives, the lease already names it and no cancel helper holds the helper's identity; otherwise a confirmed cancel with a live agent is reachable |
| RemoteTheorems.UnsafeCrashesAreReachable | src/gitlab_issue_agent/remote_runner.py:301-311 | both unsafe windows, before the lease swap and after it, are reached by runs of a new attempt |
| RemoteRunner.ExecutionHost.Prepare | src/gitlab_issue_agent/remote_runner.py:154-186 | under any interference a workspace is announced only for an accepted id without tombstone and after the helper's lease is gone; it is announced whenever it was ensured, unless the attempt is cancelled or the helper killed, which nobody but the others on the host can do |
| RemoteRunner.ExecutionHost.Cancel | src/gitlab_issue_agent/remote_runner.py:199-233 | under any interference the tombstone is there when the answer is given, ill-formed ids are refused, the process the lease names is stopped and the stop confirmed unless it outlives its signals, and a confirmed answer excludes a live agent in every continuation |
| RemoteRunner.ExecutionHost.Run | src/gitlab_issue_agent/remote_runner.py:236-320 | an attempt cancelled before it starts never launches; one with an accepted id that is not cancelled launches and returns its agent's result whenever workspace and agent can be had, if its helper is not killed; a request that is answered has released its lease and leaves nothing that can run, whether the workspace failed, the spawn failed, a tombstone was seen or the agent exited |
| RemoteRunner.ExecutionHost.Interfere | src/gitlab_issue_agent/remote_runner.py:154-320 | whatever the other helpers, agents and requests on the host do between two effects of an operation, the host's invariant holds and the operation keeps its own program counter, unless it is killed |
| RemoteRunner.ExecutionHost.SaveLease | src/gitlab_issue_agent/remote_runner.py:61-84 | from then on the protocol sees the saved identity in the lease of this attempt, no other attempt sees a difference, and every lease stays with its own attempt and target |
| RemoteRunner.ExecutionHost.IsCancelled | src/gitlab_issue_agent/remote_runner.py:111-119 | true just when the tombstone of this attempt was written by this target |
| RemoteRunner.AcceptedIds | src/gitlab_issue_agent/remote_runner.py:24 | every attempt id the scheduler makes is accepted, and no accepted id names a file outside the directory of the leases |
| ProcessGuard.MatchesTheVeryProcess | src/gitlab_issue_agent/process_guard.py:15-31 | over every history of spawns and exits without a pid reused within the tolerance, a captured identity matches if and only if that very process is still there |
| ProcessGuard.QuickReuseDeceives | src/gitlab_issue_agent/process_guard.py:26-31 | a successor under the same pid is mistaken for the captured process if and only if it is born within the tolerance |
| ProcessGuard.Guard.TerminateTree | src/gitlab_issue_agent/process_guard.py:37-56 | a matching process that is not the caller dies with all its living descendants, except those deaf to signals, and nobody else; otherwise nothing changes |
| ProcessGuard.Tree | src/gitlab_issue_agent/process_guard.py:42-43 | the set computed is exactly the process and the processes linked to it by a chain of living parents |
| ProcessGuard.Guard.ReapLocal | src/gitlab_issue_agent/execution.py:40-69 | no evidence confirms; foreign evidence never confirms and kills nobody; own evidence confirms if and only if it matches nothing, or matches a process that is not the caller and obeys its signals, and then the whole tree is gone but for the deaf |
| ContainmentSteps.StepContained | src/gitlab_issue_agent/orchestrator.py:96-945 | at most one attempt can have an agent, and while it can, the record is RUNNING or executor-blocked and leads every reap to it; every step that is not a hazard keeps this, among them crashes, handlers that die, requests left behind and lapses that meet nothing that can run, such as a stale copy saved over the record of a task that has not launched yet |
| ControlInvariant.StepKeepsInv | src/gitlab_issue_agent/orchestrator.py:96-945 | every step that is not a lapse keeps containment together with the well-formed record, the counters of the history, the address of every reap and the session of a native-resume task |
| Containment.RecordReapProves | src/gitlab_issue_agent/orchestrator.py:164-227 | in every contained state, whatever the record says, a confirmed reap sent with the record's own data proves that no agent of the issue runs or can be started |
| Containment.TaskReapProves | src/gitlab_issue_agent/orchestrator.py:520-580 | the same for a reap that confirms in an exception handler of `_execute`, with the record as the task holds it in memory |
| Containment.RunExitProves | src/gitlab_issue_agent/remote_execution.py:167-229 | at every exit of `SSHAgentBackend.run`, `executor_safe` is claimed only if the protocol state rules out an agent now and later |
| ControlTheorems.AtMostOneExecutor | src/gitlab_issue_agent/orchestrator.py:96-580 | in every safe run an issue has at most one live agent over all attempts and all targets: that of the attempt its record names, or one spawned locally in this very stretch of code |
| ControlTheorems.RecordsStayWellFormed | src/gitlab_issue_agent/orchestrator.py:229-234 | in every orderly run the record invariant holds (process only when RUNNING or executor-blocked, RELEASED without timer or process, a session only after an attempt and only for its own target, never two positive counters), and a reap of a RUNNING or executor-blocked record goes to the target where its last attempt was launched |
| ControlTheorems.CountersRefineHistory | src/gitlab_issue_agent/orchestrator.py:713-766 | in every orderly run `failure_count` is the number of failures since the last clean turn and `continuation_index` the number of clean turns since the last failure or change of target, counted as positions in a history that is written from outcomes and tracker answers and not from the record; cancellations, releases and restarts do not show |
| ControlTheorems.BlockedUntilConfirmed | src/gitlab_issue_agent/orchestrator.py:885-945 | over every orderly run, restarts included, an executor-blocked record leaves the block, or loses its attempt or its target, only through a `_reap_state` that returned true, whatever the tracker says and whatever was confirmed on the host without the scheduler learning it |
| ControlTheorems.EvidenceUntilDropped | src/gitlab_issue_agent/orchestrator.py:164-227 | until then the process a blocked record has recorded is still in it if and only if no unconfirmed reap has saved a copy without it; once forgotten it does not come back |
| HazardWitnesses.EvidenceIsDropped | src/gitlab_issue_agent/orchestrator.py:218-227 | an orderly run of a new issue reaches a blocked record with a process that the next unconfirmed reap forgets, without a lapse |
| ControlTheorems.ExitsProveStop | src/gitlab_issue_agent/orchestrator.py:497-711 | whenever the record of a contained state is READY, waiting, RELEASED or blocked for placement, so after every exit that saves one of these, none of the attempts started so far has an agent, now or in any safe continuation; a task whose saved record was overwritten counts with the record it holds in memory |
| ControlTheorems.OrderlyIsSafe | src/gitlab_issue_agent/orchestrator.py:278-304 | a run that meets none of the circumstances of a lapse is safe, so everything stated for safe runs holds under conditions the code could test |
| ControlTheorems.NativeResumeHasSession | src/gitlab_issue_agent/orchestrator.py:947-953 | a task in native-resume mode holds a non-empty session that an agent on the attempt's own target produced |
| ControlTheorems.RetiredForever | src/gitlab_issue_agent/orchestrator.py:412-580 | an attempt whose launch is over and that is quiet never has an agent again |
| ControlTheorems.ReportsAreRecorded | src/gitlab_issue_agent/orchestrator.py:412-490 | a new attempt is saved RUNNING on the target it was dispatched to and without a process; every process reported later, by the task, by its handler's request or by one left behind, is saved in its own attempt's record with that attempt's target, and nothing else changes in it |
| Progress.NoIssueIsStuck | src/gitlab_issue_agent/orchestrator.py:96-945 | from every state of an orderly run, blocked, crashed or half done, an orderly run leads to a record that may be dispatched with no task in the way |
| Progress.EveryIssueCanGoOn | src/gitlab_issue_agent/orchestrator.py:412-747 | and from there the issue can have a clean turn on any target, local or ssh, with any session: launched, run to its end, reported, counted, and scheduled to continue |
| AttemptCount.AttemptsAreCountedOnce | src/gitlab_issue_agent/orchestrator.py:412-580 | in every run whatever, lapses and hazards included, `total_attempts` never exceeds the number of attempts started |
| Hazards.HazardsAreExact | src/gitlab_issue_agent/orchestrator.py:278-304 | from every contained state, with a quiet executor or not, a step can lead to two live agents of the issue if and only if it is a hazard: after a hazard even without any further lapse, after another step not without a further hazard (the second agent being started on any local target) |
| HazardWitnesses.RefusalIsMet | src/gitlab_issue_agent/orchestrator.py:278-292 | a run of a new issue meets the placement overwrite with a live agent |
| HazardWitnesses.StaleReleaseIsMet | src/gitlab_issue_agent/orchestrator.py:846-883 | a run of a new issue meets the release of a record that was blocked, with a live agent, after it was loaded |
| HazardWitnesses.StaleRefreshIsMet | src/gitlab_issue_agent/orchestrator.py:848-857 | a run of a new issue meets the write-back of a record without the identity of its live local process |
| HazardWitnesses.BlockedCopyIsMet | src/gitlab_issue_agent/orchestrator.py:885-945 | a run of a new issue meets the save of a reaped copy of an earlier attempt's blocked record over the record of the next attempt, whose agent is alive |
| HazardWitnesses.StaleUnblockIsMet | src/gitlab_issue_agent/orchestrator.py:913-935 | a run of a new issue meets the save of such a copy as READY, after its reap was confirmed and saved without a hazard |
| HazardWitnesses.TasklessReleaseIsMet | src/gitlab_issue_agent/orchestrator.py:520-580 | a run of a new issue meets the release of a RUNNING record whose task died in its handler, with a live agent and nothing stale |
| HazardWitnesses.LateStartIsMet | src/gitlab_issue_agent/remote_execution.py:170-229 | a run of a new issue meets the late save of a request left behind over the record of the next attempt, whose agent is alive |
| HazardWitnesses.SpawnCrashIsMet | src/gitlab_issue_agent/backend.py:114-142 | a run of a new issue meets a scheduler crash between a local spawn and the save of its identity |
| HazardWitnesses.HelperCrashIsMet | src/gitlab_issue_agent/remote_runner.py:301-311 | a run of a new issue meets the crash of a remote helper that still holds its agent's lease |
| World.AtMostOneExecutorPerIssue | src/gitlab_issue_agent/orchestrator.py:54-96 | at every moment of every safe run of the whole scheduler, each issue has at most one live agent, that of the attempt its record names or one spawned in this very stretch of code; crashes hit all issues at once |
| Recovery.RestartIsTransparent | src/gitlab_issue_agent/orchestrator.py:96-162 | for well-formed records and stable answers, `recover` cut after any save and run again from disk gives the records of one uninterrupted pass, up to the recovery count |
| Recovery.HalfwayIsExact | src/gitlab_issue_agent/orchestrator.py:164-227 | for any record that carries its target, a restart between the two saves agrees with the uninterrupted pass unless, and only unless, the reap was confirmed, the phase was RUNNING or BLOCKED and the attempt id was known only from the process evidence just cleared |
| Recovery.RecoveryLeavesNothingRunning | src/gitlab_issue_agent/orchestrator.py:102-156 | after recovery no record is RUNNING and no timer is left; a record is executor-blocked if and only if it was RUNNING or executor-blocked and its reap was not confirmed; of the others, those of inactive issues are RELEASED, those blocked for placement stay so, and the rest are READY; only an executor-blocked record has a process |
| Recovery.CutAt | src/gitlab_issue_agent/orchestrator.py:98-156 | wherever recovery dies, each record is untouched, fully recovered, or in the one intermediate state its reap saves |
| Recovery.ReapMeans | src/gitlab_issue_agent/orchestrator.py:164-234 | a reap is confirmed if and only if the record knows its attempt, the target it names is configured, and that target stopped the attempt: a confirmed cancel on ssh, no evidence or evidence that is gone on a local one; it cannot be sent if and only if attempt or target is unknown |
| Orchestrator.Orchestrator.ReapState | src/gitlab_issue_agent/orchestrator.py:164-234 | true just when the record's attempt is known, its target configured and that target's reap confirmed; the process evidence is then cleared, and otherwise the record is BLOCKED |
| Orchestrator.Orchestrator.Recover | src/gitlab_issue_agent/orchestrator.py:96-162 | the loop, dying after any number of saves, leaves exactly the records of the cut specification that the restart theorem is about |
| Orchestrator.Orchestrator.FinishAttempt | src/gitlab_issue_agent/orchestrator.py:582-711 | the record after its first save, if the process dies there, and after its last save: what is counted and when the issue may run again, for every outcome, mode, tracker answer and stop proof; `Refinement.EndIsARun` ties both to the machine |
| IssueRecords.EveryEnd | src/gitlab_issue_agent/orchestrator.py:582-766 | an unproved stop blocks; after a proved one a failed or timed-out attempt, or one whose issue cannot be looked up, counts one failure, ends the clean streak and waits for the backoff of the new count; a clean exit counts one clean turn, ends the failures and waits for the delay of the new index; a cancelled attempt of an active issue is READY now; any other disposition releases; a failed native resume gives up its session |
| Orchestrator.Orchestrator.HandleCancellation | src/gitlab_issue_agent/orchestrator.py:520-549 | the record becomes ready now, without its process, if and only if the target stopped the attempt, and is blocked with its evidence otherwise; if the reap raises nothing is saved |
| Orchestrator.Orchestrator.HandleFault | src/gitlab_issue_agent/orchestrator.py:550-580 | the attempt is counted; a failure with its backoff is scheduled if and only if the target stopped the attempt, else the record is blocked; if the reap raises nothing is saved |
| Orchestrator.Orchestrator.ScheduleCleanContinuation | src/gitlab_issue_agent/orchestrator.py:713-729 | a clean turn resets the failures, counts up, and waits for the delay whose yields `Timing` counts |
| Orchestrator.Orchestrator.ScheduleFailure | src/gitlab_issue_agent/orchestrator.py:749-766 | a failure counts up, ends the clean streak, clears the process, and waits for the backoff delay of the new count |
| Orchestrator.Orchestrator.ReconcileRunning | src/gitlab_issue_agent/orchestrator.py:778-828 | a task is asked to stop if and only if the tracker answered and the issue is not active, has no valid placement or belongs on another target; no task disappears and no target's load changes |
| Passes.CancelDecisionMeans | src/gitlab_issue_agent/orchestrator.py:778-814 | a task is left alone if and only if the tracker failed, or says active and the labels still lead to its target; the reason given is the disposition just when the issue is inactive, and the placement just when the labels lead nowhere |
| Orchestrator.Orchestrator.ReconcileWaiting | src/gitlab_issue_agent/orchestrator.py:846-883 | every listed record without a task that waits and is no longer active is released, and no other record changes |
| Orchestrator.Orchestrator.ReconcileBlocked | src/gitlab_issue_agent/orchestrator.py:885-945 | every listed record is released from a placement block when the tracker no longer wants it, or unblocked when its reap is confirmed, and changes in no other way; none leaves an executor block without a confirmed reap |
| Passes.BeforeDispatchMeans | src/gitlab_issue_agent/orchestrator.py:254-259 | the passes before the dispatch loop, as phases: an executor block ends if and only if its reap is confirmed; what the tracker calls inactive is RELEASED unless it has a task; what was freed, or was released and is listed, is READY; the rest keeps its phase, and counters, session and address never change |
| Passes.OfferMeans | src/gitlab_issue_agent/orchestrator.py:263-317 | the dispatcher offers target `t` if and only if the labels lead to `t` and the record is READY, waiting or blocked for placement with no timer or one that has run out, or is RUNNING without a task and its reap is confirmed |
| Passes.ExamineMeans | src/gitlab_issue_agent/orchestrator.py:267-305 | what the dispatcher leaves on disk for every candidate, offered or not |
| Passes.ClaimMeans | src/gitlab_issue_agent/orchestrator.py:318-334 | a claim keeps session, workspace and clean streak if and only if the target does not change |
| Orchestrator.Orchestrator.TryDispatch | src/gitlab_issue_agent/orchestrator.py:261-335 | a candidate is dispatched to `t` if and only if it has no task, may run on `t` now, and `t` has a free slot; the counters stay exact and no cap is passed |
| Orchestrator.Orchestrator.Dispatch | src/gitlab_issue_agent/orchestrator.py:254-335 | the global and per-target caps hold; of the candidates listed once only those that may run are dispatched, and one that may run is left out only if its target or the scheduler is full; of those that may run on one target the earlier run first; nothing else changes |
| Orchestrator.Orchestrator.Completed | src/gitlab_issue_agent/orchestrator.py:402-410 | a finished task leaves the running map alone of all tasks, frees a slot of its target, and the caps still hold |
| Orchestrator.Orchestrator.Tick | src/gitlab_issue_agent/orchestrator.py:236-335 | all passes in their order: nothing is dispatched when stopping or when the listing failed; otherwise the above for the listed issues, the lower `iid` going first and at equal `iid` the lower id, and for every one of them without a task if the listing names none twice |
| Orchestrator.Orchestrator.NextWaitSeconds | src/gitlab_issue_agent/orchestrator.py:955-971 | the wait is positive, never above the poll interval, and below a full scheduler exactly the least of the poll interval and the times left of the waiting records |
| Refinement.TickIsARun | src/gitlab_issue_agent/orchestrator.py:236-335 | everything one tick saves in a record without a task, and its dispatch, is a run of the machine when the targets answer truthfully; it lapses if and only if the record is released although it is RUNNING, or reaches the dispatch loop executor-blocked with labels that name no usable target |
| Refinement.RecoveryIsARun | src/gitlab_issue_agent/orchestrator.py:96-162 | what `recover` saves for a record, at its intermediate and at its last save, are steps of the machine without a lapse |
| Refinement.EndIsARun | src/gitlab_issue_agent/orchestrator.py:497-711 | after every end of an attempt (cancelled before the launch, not spawned, returned by the local or by the ssh backend) both saves of `_finish_attempt` are those of a run of the machine without a lapse |
| Refinement.HandlerIsARun | src/gitlab_issue_agent/orchestrator.py:520-580 | what an exception handler saves when its reap answers truthfully, and that it saves nothing when the reap raises, is a run of the machine without a lapse |
| Reaping.ReapOverSsh | src/gitlab_issue_agent/remote_execution.py:102-118 | under any interference on the host, a reap is confirmed only if its request arrived, a cancel helper confirmed and the answer came back, and then no continuation of the attempt has a live agent; it is confirmed if both messages arrive and the executor obeys its signals |
| Reaping.ReapRemoteRecord | src/gitlab_issue_agent/orchestrator.py:164-227 | the reap of any record, saved or copied, that goes to an ssh target, performed on the host under any interference: whatever it answers is allowed by the machine when its attempts are what the host has become |
| Reaping.ReapLocalRecord | src/gitlab_issue_agent/execution.py:49-69 | the same for a reap that goes to a local target, performed on the process table, when the evidence of a live agent was captured of its very process and no pid was reused within the tolerance since; and exactly when it is confirmed |
| Placement.PlaceMeaning | src/gitlab_issue_agent/execution.py:84-97 | placement yields `t` if and only if `t` is configured and is the one target some label asks for (the prefix with `t` behind it), or the default when none asks; order and repetition of labels do not matter |
| Placement.SortedByRank | src/gitlab_issue_agent/orchestrator.py:259 | the candidates are the same multiset, `iid`s rise along the list, and at equal `iid` the ids do, by the first character in which they differ or by one being a prefix of the other |
| Timing.RetryDelayRecurrence | src/gitlab_issue_agent/config.py:222-224 | the delay is the capped recurrence that starts at the initial delay and multiplies per failure, rises, and stays between the initial and the maximal delay |
| Timing.RetryDelayMonotone | src/gitlab_issue_agent/config.py:222-224 | more failures never shorten the delay |
| Timing.CapIsReached | src/gitlab_issue_agent/config.py:216-224 | the maximal delay is reached after finitely many failures if and only if initial and maximal delay are equal or the initial delay is positive and the multiplier exceeds one; once reached it is kept |
| Timing.YieldsCountQuotients | src/gitlab_issue_agent/orchestrator.py:721-729 | the clean turns after the first `lo` up to the first `hi` contain floor(hi/m) - floor(lo/m) yields |
| Timing.EveryWindowYieldsOnce | src/gitlab_issue_agent/orchestrator.py:721-729 | every m = `max_consecutive` consecutive clean turns contain exactly one yield |
| Timing.StreakDelay | src/gitlab_issue_agent/orchestrator.py:721-729 | k clean turns are delayed by k delays plus floor(k/m) times what a yield adds |
| StateStore.StateStore.Save | src/gitlab_issue_agent/state.py:78-86 | a save is seen under its own identifier and under no other identifier in use |
| StateStore.StateStore.ForIssue | src/gitlab_issue_agent/state.py:59-76 | an issue seen before keeps its record, a new one gets a fresh record, and no other issue's record changes |
| StateStore.StateStore.LoadAll | src/gitlab_issue_agent/state.py:88-92 | every stored record is returned, each once, in the order of the keys |
| StateStore.ApartMeans | src/gitlab_issue_agent/state.py:23-38 | for identifiers that need sanitizing, keys are distinct if and only if the digest separates those with the same sanitized form |
| Identity.IdRoundTrip | src/gitlab_issue_agent/tracker.py:91-100 | the id the tracker gives an issue is looked up again as that issue, for every project string, colons included, and refused under another project |
| Identity.FetchMeans | src/gitlab_issue_agent/tracker.py:91-103 | issue `iid` is fetched if and only if the id is the configured project, a colon, and a number text without a colon whose value is `iid` |
| Identity.IdentifierInjective | src/gitlab_issue_agent/tracker.py:143-147 | identifiers are equal just when project and iid are |
| Identity.TrackerKeysAreDistinct | src/gitlab_issue_agent/state.py:23-28 | two identifiers the tracker makes share a workspace key if and only if they are the same issue or the digest collides on them |
| Identity.SharedKeyMeans | src/gitlab_issue_agent/state.py:23-28 | for all identifiers, exactly when two of them share a key |
| Identity.KeysCollideOutsideTheTracker | src/gitlab_issue_agent/state.py:23-28 | over all identifiers the key is not injective whatever the digest: the key of an identifier that needs sanitizing is another identifier with that key |
| Summary.TrimSummary | src/gitlab_issue_agent/backend.py:336-344 | the backward loop keeps what the specification keeps |
| Summary.TrimIsShortest | src/gitlab_issue_agent/backend.py:336-344 | what is kept is the shortest nonempty suffix whose weight reaches the limit, or everything |
| Summary.StreamIsTrim | src/gitlab_issue_agent/backend.py:146-177 | trimming after every piece keeps what trimming all pieces once keeps, for every limit |
| Summary.TextOfTrim | src/gitlab_issue_agent/backend.py:223 | the reported text is the last N characters of the untrimmed join, except for one leading newline, which is missing if and only if some proper suffix of the pieces weighs exactly N |
| Summary.Report | src/gitlab_issue_agent/backend.py:146-223 | the reader's loop over all pieces reports that text; a limit below one, which the configuration accepts, keeps only the last piece |
| SessionSearch.SearchIsComplete | src/gitlab_issue_agent/backend.py:309-326 | a session id is found if and only if, in objects and arrays of any depth, one of the four session keys has a text that is not blank |
| SessionSearch.SearchIsFirst | src/gitlab_issue_agent/backend.py:309-326 | the result is the trimmed, nonblank text at the first such place in the order of the record, and nothing else |
| SessionSearch.ExtractSessionId | src/gitlab_issue_agent/backend.py:297-307 | the first configured path that ends at a nonblank text decides; if there is none, the search does; a result is trimmed and not blank |
| SessionSearch.AtPathMeans | src/gitlab_issue_agent/backend.py:298-306 | a configured path yields a text if and only if it can be followed, key by key, to a text that is not blank, and then yields that text trimmed |
| SessionSearch.StripMeans | src/gitlab_issue_agent/backend.py:306 | trimming takes away a blank beginning and a blank end and nothing else |
| AgentRequest.ModesAreWellFormed | src/gitlab_issue_agent/backend.py:252-258 | in every orderly run whose modes are chosen from the targets' configurations, a native-resume task has a session from its own target, and `_arguments` takes the resume template, from the target's configuration and from the copy the remote helper decodes |
| AgentRequest.ModesAreExact | src/gitlab_issue_agent/orchestrator.py:947-953 | in every run whatever whose modes are chosen from the targets' configurations, a launching or executing task is in first mode if and only if no attempt has ended yet, and in native-resume mode if and only if one has, there is a session and its target can resume it |
| AgentRequest.WireRoundTrip | src/gitlab_issue_agent/remote_protocol.py:25-47 | decoding the encoded agent configuration gives it back |

## Left out

- The HTTP client, pagination and the computation of an issue's disposition: the tracker is a parameter that answers with a disposition or fails.
- SSH command lines and message framing: a request is delivered at some later time, at most once, or never; answers may be lost.
- Git worktrees and the remote `snapshot` operation: preparing a workspace succeeds or fails.
- The steps of a tree kill: the snapshot of children and the signals are one step. Processes that refuse an inspection (`AccessDenied`) are not modelled.
- Event logging and the file lock; an emitted event never suspends a task and never fails, and the durable files are stable storage.
- Prompts, the command line interface, configuration loading, environment variables, and the rendering of placeholders in command lines.
- SHA-256: the digest is any function; where it matters, the statement says what it must separate.
- Floating point, clock jumps and overflow of delays: instants and delays are reals.
- The fields `last_error`, `branch` and the tracker snapshot of a record, which no decision reads.
- `_execute` up to its end and `SSHAgentBackend.run` are the steps of `ControlPlane` and not one method each, because other tasks run at each of their awaits.
- An exception of a reap inside `recover` or `tick` ends the scheduler process; in `ControlPlane` it is a crash.
- RemoteRunner.ExecutionHost.Cancel: a lease of another target, which the source answers with an ownership error, does not occur, because every target has a host of its own here.
- RemoteRunner.ExecutionHost.Interfere: the version check and the refusal of unknown operations by the dispatcher of the helper are not modelled.
- Orchestrator.Orchestrator.ReconcileRunning: the wait for the tasks asked to stop, and their cancellation when it is over, are the steps of `ControlPlane`.
- Orchestrator.Orchestrator.ReconcileWaiting: the pass runs without interference at its awaits; with interference it is the steps `LoadWaiting`, `RefreshWaiting` and `ReleaseWaiting` of `ControlPlane`.
- Orchestrator.Orchestrator.ReconcileBlocked: the pass runs without interference at its awaits; with interference it is the steps `LoadBlocked`, `ReapBlocked`, `Unblock` and `ReleasePlacement` of `ControlPlane`.
- Orchestrator.Orchestrator.Completed: the test that the entry still belongs to the finished task is always true, because an issue in the running map is never dispatched, and is left out.
- Orchestrator.Orchestrator.Tick: the passes of one tick run without interference from the tasks, and a task that was asked to stop is not awaited; interference is in `ControlPlane`, where the passes of a tick are separate steps.
- Orchestrator.Orchestrator.Dispatch: of a listing that names an issue twice, it says nothing about that issue beyond the caps, because the occurrences may carry different labels.
- Recovery.RestartIsTransparent: the answers of targets and tracker are the same before and after the restart; without that the two passes differ.
- Shutdown and `run_forever`; a shutdown is a series of cancellations in `ControlPlane`.
- The kinds and names of the execution targets are the same after a restart, and attempt ids are unique.
- AgentRequest.WireRoundTrip: values of unexpected types in a request, which `agent_from_payload` coerces, are not modelled.
- Identity.FetchMeans: `int` is modelled on ASCII digits with an optional sign; the blanks, underscores and other digits it also accepts are not.
- SessionSearch.ExtractSessionId: a configured path is given by its segments; splitting it at its dots is not modelled.
- `supports_native_resume` of a target does not change while an attempt of it runs.
