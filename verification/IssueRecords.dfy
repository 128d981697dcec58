/**
 The durable record of one issue, and what each save of the scheduler writes.
 Diagnostic text (`last_error`), the tracker snapshot and the branch name are not
 part of the record here: no decision reads them.
 */
module IssueRecords {
  import opened Wrappers
  import opened Timing

  /** The configured id of an execution target. */
  type Target = string

  datatype Phase = Ready | Running | ContinuationWait | RetryWait | Blocked | Released

  datatype AttemptOutcome = CleanExit | Failed | TimedOut | Cancelled

  datatype LastOutcome =
    | NoOutcome
    | AttemptEnded(outcome: AttemptOutcome)
    | ExecutorStopUnconfirmed
    | ExecutorStopConfirmed
    | PlacementBlocked
    | PlacementUnblocked
    | PlacementBlockReleased
    | ColdStartRecovered
    | ColdStartOverride
    | TrackerReactivated

  datatype Disposition = Active | NonActive | Terminal | Missing

  datatype TrackerAnswer = TrackerFailed | Found(disposition: Disposition)

  datatype Mode = First | NativeResume | Stateless

  datatype ProcessIdentity = ProcessIdentity(pid: nat, createTime: real, attemptId: string, hostId: string)

  /** A backend session id, with the target whose agent produced it. */
  datatype Session = Session(text: string, origin: Target)

  datatype AgentResult = AgentResult(
    outcome: AttemptOutcome,
    session: Option<Session>,
    summary: string,
    executorSafe: bool)

  datatype IssueState = IssueState(
    phase: Phase,
    executionTarget: Option<Target>,
    workspacePath: Option<string>,
    totalAttempts: nat,
    failureCount: nat,
    continuationIndex: nat,
    session: Option<Session>,
    process: Option<ProcessIdentity>,
    nextRunAt: Option<real>,
    lastAttemptId: Option<string>,
    lastOutcome: LastOutcome,
    lastSummary: string,
    recoveryCount: nat)

  const NEW_ISSUE := IssueState(Ready, None, None, 0, 0, 0, None, None, None, None, NoOutcome, "", 0)

  /** The instants an exit may schedule: the next turn after a clean one, the next
      one after a failure, and the present. */
  datatype Times = Times(continueAt: real, retryAt: real, now: real)

  datatype Config = Config(retry: RetryConfig, continuation: ContinuationConfig) {
    predicate Valid() { retry.Valid() && continuation.Valid() }
  }

  /** The instants the configuration gives for record `r`. */
  function Schedule(r: IssueState, c: Config, now: real): Times
    requires c.Valid()
  {
    Times(now + ContinuationDelay(c.continuation, r.continuationIndex + 1),
          now + RetryDelay(c.retry, r.failureCount + 1),
          now)
  }

  /** Blocked because an executor may still be running, not because of its labels. */
  predicate ExecutorBlocked(r: IssueState) {
    r.phase == Blocked && r.lastOutcome != PlacementBlocked
  }

  predicate Dispatchable(p: Phase) {
    p == Ready || p == ContinuationWait || p == RetryWait
  }

  predicate Due(r: IssueState, now: real) {
    r.nextRunAt.None? || r.nextRunAt.value <= now
  }

  /** `_state_target_id`. */
  function ReapTarget(r: IssueState, default: Target): Target {
    if r.executionTarget.Some? && r.executionTarget.value != "" then r.executionTarget.value
    else if r.process.Some? && r.process.value.hostId != "local" then r.process.value.hostId
    else default
  }

  function ReapAttempt(r: IssueState): Option<string> {
    if r.lastAttemptId.Some? && r.lastAttemptId.value != "" then r.lastAttemptId
    else if r.process.Some? && r.process.value.attemptId != "" then Some(r.process.value.attemptId)
    else None
  }

  /** `_continuation_mode`. */
  function ContinuationMode(r: IssueState, supportsNative: bool): Mode {
    if r.totalAttempts == 0 then First
    else if r.session.Some? && r.session.value.text != "" && supportsNative then NativeResume
    else Stateless
  }

  // ----- tick

  predicate TargetChanges(r: IssueState, t: Target) {
    r.executionTarget.Some? && r.executionTarget.value != "" && r.executionTarget.value != t
  }

  function Claimed(r: IssueState, t: Target): IssueState {
    var moved := if TargetChanges(r, t) then r.(session := None, workspacePath := None, continuationIndex := 0) else r;
    moved.(executionTarget := Some(t))
  }

  function Reactivated(r: IssueState): IssueState {
    r.(phase := Ready, nextRunAt := None, lastOutcome := TrackerReactivated)
  }

  function PlacementRefused(r: IssueState): IssueState {
    r.(phase := Blocked, lastOutcome := PlacementBlocked, nextRunAt := None)
  }

  function PlacementRestored(r: IssueState): IssueState {
    r.(phase := Ready, lastOutcome := PlacementUnblocked)
  }

  function StaleRunningReleased(r: IssueState): IssueState {
    r.(phase := Ready, nextRunAt := None)
  }

  // ----- _execute and _finish_attempt

  function Started(r: IssueState, id: string, t: Target): IssueState {
    r.(phase := Running, nextRunAt := None, lastAttemptId := Some(id), executionTarget := Some(t), process := None)
  }

  function Reported(r: IssueState, result: AgentResult, number: nat): IssueState {
    r.(totalAttempts := number,
       lastOutcome := AttemptEnded(result.outcome),
       lastSummary := result.summary,
       session := if result.session.Some? && result.session.value.text != "" then result.session else r.session)
  }

  function ReportedUnsafe(r: IssueState, result: AgentResult, number: nat): IssueState {
    Reported(r, result, number).(phase := Blocked, nextRunAt := None, lastOutcome := ExecutorStopUnconfirmed)
  }

  function ReportedSafe(r: IssueState, result: AgentResult, number: nat): IssueState {
    Reported(r, result, number).(process := None)
  }

  function CleanContinuation(r: IssueState, at: real): IssueState {
    r.(failureCount := 0, continuationIndex := r.continuationIndex + 1,
       phase := ContinuationWait, nextRunAt := Some(at))
  }

  function Failure(r: IssueState, at: real, summary: string): IssueState {
    r.(failureCount := r.failureCount + 1,
       continuationIndex := 0,
       phase := RetryWait,
       nextRunAt := Some(at),
       lastSummary := summary,
       process := None)
  }

  /** The last save of `_finish_attempt`, after the executor is known to have stopped. */
  function Finished(r: IssueState, result: AgentResult, mode: Mode, answer: TrackerAnswer, t: Times): IssueState {
    match answer
    case TrackerFailed => Failure(r, t.retryAt, result.summary)
    case Found(disposition) =>
      if disposition != Active then r.(phase := Released, nextRunAt := None, process := None)
      else match result.outcome
           case CleanExit => CleanContinuation(r, t.continueAt)
           case Cancelled => r.(phase := Ready, nextRunAt := Some(t.now))
           case _ => Failure(if mode == NativeResume then r.(session := None) else r, t.retryAt, result.summary)
  }

  /** What `_finish_attempt` makes of the record, all saves together. */
  function AttemptFinished(r: IssueState, result: AgentResult, mode: Mode, number: nat, answer: TrackerAnswer,
                           config: Config, now: real): IssueState
    requires config.Valid()
  {
    if result.executorSafe then
      var safe := ReportedSafe(r, result, number);
      Finished(safe, result, mode, answer, Schedule(safe, config, now))
    else ReportedUnsafe(r, result, number)
  }

  // ----- what the end of an attempt means for the record

  /** The attempt counts as failed: its outcome says so, or nobody can say that the issue is still active. */
  predicate CountsAsFailed(outcome: AttemptOutcome, answer: TrackerAnswer) {
    answer.TrackerFailed? || (answer == Found(Active) && (outcome == Failed || outcome == TimedOut))
  }

  /** The session after the attempt: a native resume that failed gives its session up. */
  predicate KeepsSession(r: IssueState, f: IssueState, result: AgentResult, mode: Mode, answer: TrackerAnswer) {
    if result.executorSafe && answer.Found? && CountsAsFailed(result.outcome, answer) && mode == NativeResume then
      f.session == None
    else if result.session.Some? && result.session.value.text != "" then f.session == result.session
    else f.session == r.session
  }

  /** The record after a stop that was not proved. */
  predicate EndsUnproved(r: IssueState, f: IssueState) {
    && f.phase == Blocked && f.lastOutcome == ExecutorStopUnconfirmed && f.nextRunAt == None
    && f.process == r.process && f.failureCount == r.failureCount && f.continuationIndex == r.continuationIndex
  }

  /** The record after a proved stop: what was counted, and when the issue may run again. */
  predicate EndsProved(r: IssueState, f: IssueState, outcome: AttemptOutcome, answer: TrackerAnswer, c: Config,
                       now: real)
    requires c.Valid()
  {
    && f.process == None && f.lastOutcome == AttemptEnded(outcome)
    && if CountsAsFailed(outcome, answer) then
         && f.phase == RetryWait && f.failureCount == r.failureCount + 1 && f.continuationIndex == 0
         && f.nextRunAt == Some(now + RetryDelay(c.retry, f.failureCount))
       else if answer == Found(Active) && outcome == CleanExit then
         && f.phase == ContinuationWait && f.failureCount == 0 && f.continuationIndex == r.continuationIndex + 1
         && f.nextRunAt == Some(now + ContinuationDelay(c.continuation, f.continuationIndex))
       else
         && f.failureCount == r.failureCount && f.continuationIndex == r.continuationIndex
         && if answer == Found(Active) then f.phase == Ready && f.nextRunAt == Some(now)
            else f.phase == Released && f.nextRunAt == None
  }

  /** Attempt `number` ended with `result`, and the tracker gave `answer`. */
  predicate EndsAs(r: IssueState, f: IssueState, result: AgentResult, mode: Mode, number: nat, answer: TrackerAnswer,
                   c: Config, now: real)
    requires c.Valid()
  {
    && f.totalAttempts == number && f.lastSummary == result.summary
    && f.lastAttemptId == r.lastAttemptId && f.executionTarget == r.executionTarget
    && f.workspacePath == r.workspacePath && f.recoveryCount == r.recoveryCount
    && KeepsSession(r, f, result, mode, answer)
    && if result.executorSafe then EndsProved(r, f, result.outcome, answer, c, now) else EndsUnproved(r, f)
  }

  /** Every outcome, with every answer of the tracker, is counted and scheduled as it should be. */
  lemma EveryEnd(r: IssueState, result: AgentResult, mode: Mode, number: nat, answer: TrackerAnswer, c: Config,
                 now: real)
    requires c.Valid()
    ensures EndsAs(r, AttemptFinished(r, result, mode, number, answer, c, now), result, mode, number, answer, c, now)
  {
    var f := AttemptFinished(r, result, mode, number, answer, c, now);
    if result.executorSafe {
      assert EndsProved(r, f, result.outcome, answer, c, now);
    } else {
      assert EndsUnproved(r, f);
    }
  }

  /** The CancelledError handler of `_execute`. */
  function TaskCancelled(r: IssueState, confirmed: bool, now: real): IssueState {
    if confirmed then
      r.(process := None, phase := Ready, nextRunAt := Some(now), lastOutcome := AttemptEnded(Cancelled))
    else r.(phase := Blocked, nextRunAt := None, lastOutcome := AttemptEnded(Cancelled))
  }

  /** The general exception handler of `_execute`. */
  function TaskFailed(r: IssueState, number: nat, confirmed: bool, retryAt: real): IssueState {
    if confirmed then Failure(r.(totalAttempts := number, process := None), retryAt, r.lastSummary)
    else r.(totalAttempts := number, phase := Blocked, nextRunAt := None, lastOutcome := ExecutorStopUnconfirmed)
  }

  // ----- _reap_state, reconciliation and recovery

  datatype Reap = Confirmed | Unconfirmed | Impossible

  /** The save inside `_reap_state`. */
  function Reaped(r: IssueState, reap: Reap): IssueState {
    match reap
    case Confirmed => r.(process := None)
    case Unconfirmed => r.(phase := Blocked, nextRunAt := None)
    case Impossible => r.(phase := Blocked)
  }

  function Unblocked(r: IssueState, answer: TrackerAnswer): IssueState {
    match answer
    case TrackerFailed => r.(phase := Ready)
    case Found(disposition) =>
      r.(phase := if disposition == Active then Ready else Released, nextRunAt := None,
         lastOutcome := ExecutorStopConfirmed)
  }

  function PlacementBlockReleasedByTracker(r: IssueState): IssueState {
    r.(phase := Released, nextRunAt := None, lastOutcome := PlacementBlockReleased)
  }

  function WaitingReleased(r: IssueState): IssueState {
    r.(phase := Released, nextRunAt := None, process := None)
  }

  predicate NeedsReap(r: IssueState) {
    && (r.process.Some? || r.phase == Running || r.phase == Blocked)
    && r.lastOutcome != PlacementBlocked
  }

  /** The record in memory once `recover` has dealt with the orphan executor. */
  function AfterReap(r: IssueState, reap: Reap): IssueState {
    if NeedsReap(r) then Reaped(r, reap).(phase := if reap == Confirmed then Ready else Blocked) else r
  }

  /** The last save of `recover` for one record; `r` is the record after its reap. */
  function Recovered(r: IssueState, answer: TrackerAnswer): IssueState {
    var counted := r.(recoveryCount := r.recoveryCount + 1, nextRunAt := None);
    match answer
    case TrackerFailed => counted.(phase := if r.phase == Blocked then Blocked else Ready)
    case Found(disposition) =>
      if r.phase == Blocked && r.lastOutcome == PlacementBlocked then
        if disposition == Active then counted
        else counted.(phase := Released, lastOutcome := ColdStartOverride)
      else if r.phase == Blocked then counted.(lastOutcome := ExecutorStopUnconfirmed)
      else if disposition == Active then counted.(phase := Ready, lastOutcome := ColdStartRecovered)
      else counted.(phase := Released, lastOutcome := ColdStartOverride)
  }
}
