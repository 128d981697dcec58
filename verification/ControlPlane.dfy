/**
 One issue under the scheduler: its durable record, the scheduler's in-memory task,
 and every attempt ever started for it on any execution target.  Each step ends with
 at most one save of the record, so a scheduler crash may fall between any two saves.
 Requests are delivered at any later time or never, and answers may be lost.

 The steps are those of the code.  Some of them can lose track of an executor in
 circumstances the code does not exclude; `Lapse` names the circumstances, and `Hazard`
 those among them in which an executor may still be running.
 */
module ControlPlane {
  import opened Wrappers
  import opened History
  import opened IssueRecords
  import R = RemoteAttempt

  datatype Side = LocalSide(agent: R.Agent) | RemoteSide(protocol: R.Attempt)

  datatype Attempt = Attempt(target: Target, side: Side)

  /** How far the task of the running map has come.  Except while it handles an
      unconfirmed stop or an exception, its record in memory is the one it saved last. */
  datatype Task =
    | NoTask
    | Dispatched(target: Target)                     // in the running map, not yet begun
    | Starting(id: string)                           // RUNNING saved, before the `try`
    | Preparing(id: string)                          // waiting for the workspace
    | Launching(id: string, mode: Mode)              // workspace saved, mode chosen
    | Spawned(id: string, mode: Mode, identity: ProcessIdentity) // local agent started, identity not yet saved
    | Executing(id: string, mode: Mode)              // inside `backend.run`
    | Finishing(id: string, mode: Mode, result: AgentResult)     // result saved, asking the tracker
    | Settling(id: string, local: IssueState)        // unsafe result, asking the tracker before the save
    | Stopping(id: string, local: IssueState, number: nat, fault: bool, unsettled: bool) // handler, at its reap
    | Ending                                         // last save done

  /** The copy of the record that a pass of the polling loop has loaded and will save, changed,
      once its requests are answered. */
  datatype Pass =
    | NoPass
    | BlockedPass(copy: IssueState, reaped: bool)    // `_reconcile_blocked`; the reap has confirmed and been saved
    | WaitingPass(copy: IssueState)                  // `_reconcile_waiting`
    | StalePass(copy: IssueState)                    // the dispatch loop, reaping a RUNNING record without a task

  datatype System = System(
    rec: IssueState,                 // as it is on disk
    attempts: map<string, Attempt>,
    task: Task,
    memory: Option<IssueState>,      // the task's own record, once somebody else has overwritten the saved one
    late: set<IssueState>,           // the records held by requests that were never settled
    up: bool,                        // recovery of this record is complete
    pass: Pass,
    ssh: set<Target>,                // the targets of kind ssh
    home: Target,                    // the default target
    history: seq<Mark>)

  datatype RunExit =
    | Response(outcome: AttemptOutcome, session: Option<Session>, summary: string)
    | CancelExit(confirmed: bool)
    | TimeoutExit(confirmed: bool)
    | TransportExit(confirmed: bool)

  /** The result `SSHAgentBackend.run` returns at each of its exits. */
  function RunResult(exit: RunExit, session: Option<Session>): AgentResult {
    match exit
    case Response(outcome, observed, summary) => AgentResult(outcome, observed, summary, true)
    case CancelExit(confirmed) => AgentResult(Cancelled, session, "", confirmed)
    case TimeoutExit(confirmed) => AgentResult(TimedOut, session, "", confirmed)
    case TransportExit(confirmed) => AgentResult(Failed, session, "", confirmed)
  }

  /** What happens on the execution targets. */
  datatype TargetEvent =
    | HostStep(host: string, e: R.Event)
    | LocalExit(host: string)

  /** The task of one attempt, up to the launch of its executor. */
  datatype StartEvent =
    | Dispatch(target: Target)
    | Begin(id: string)
    | EnterTry
    | SendPrepare
    | WorkspaceReady(path: string, supportsNative: bool)
    | LaunchCancelled(summary: string)
    | SendRun
    | SpawnLocal(pid: nat, createTime: real)
    | SpawnFailed

  /** The task of one attempt, from the launch to its last save. */
  datatype FinishEvent =
    | RecordSpawn
    | MissSpawn                      // the local agent was gone before its identity could be read
    | RemoteStarted(pid: nat, createTime: real)
    | StartedWhileStopping(pid: nat, createTime: real) // by the request left behind, during the handler's reap
    | RemoteReturn(exit: RunExit)
    | LocalReturn(outcome: AttemptOutcome, session: Option<Session>, summary: string)
    | SettleUnsafe
    | Finish(answer: TrackerAnswer, times: Times)
    // CancelledError or another exception; the `run` request may be left behind
    | Interrupt(fault: bool, unsettled: bool)
    | Stopped(confirmed: bool, times: Times)
    | HandlerDies                    // the reap of the exception handler raises, or is cancelled
    | TaskDone

  /** The polling loop, scheduler death and cold start. */
  datatype LoopEvent =
    | LoadBlocked
    | ReapBlocked(reap: Reap)
    | Unblock(answer: TrackerAnswer)
    | ReleasePlacement
    | LoadWaiting
    | RefreshWaiting
    | ReleaseWaiting
    | Reactivate
    | LoadStale
    | ReapStale(reap: Reap)
    | ReleaseStale
    | RefusePlacement
    | RestorePlacement
    | LateStart(held: IssueState, pid: nat, createTime: real) // a request left behind hears of its process
    | Crash
    | RecoverReap(reap: Reap)
    | Recover(reap: Reap, answer: TrackerAnswer)

  datatype Event =
    | OnTarget(t: TargetEvent)
    | InStart(b: StartEvent)
    | InFinish(f: FinishEvent)
    | InLoop(l: LoopEvent)

  function Init(ssh: set<Target>, home: Target): System {
    System(NEW_ISSUE, map[], NoTask, None, {}, true, NoPass, ssh, home, [])
  }

  predicate SideLive(side: Side) {
    match side
    case LocalSide(agent) => agent == R.Live
    case RemoteSide(p) => p.agent == R.Live
  }

  /** No agent runs, and no request already sent can start one. */
  predicate Quiet(side: Side) {
    match side
    case LocalSide(agent) => agent != R.Live
    case RemoteSide(p) => !R.CanStillRun(p)
  }

  predicate Unlaunched(side: Side) {
    match side
    case LocalSide(agent) => agent == R.NotSpawned
    case RemoteSide(p) => p.runner.RunUnsent?
  }

  /** The record in the task's memory. */
  function Own(s: System): IssueState {
    if s.memory.Some? then s.memory.value else s.rec
  }

  /** The task of attempt `id` has a record of its own; it may differ from the saved one. */
  predicate HoldsRecord(t: Task) {
    !(t.NoTask? || t.Dispatched? || t.Ending?)
  }

  /** The attempt of the task, where it runs. */
  predicate OnSsh(s: System, id: string) {
    id in s.attempts && s.attempts[id].side.RemoteSide?
  }

  predicate OnLocal(s: System, id: string, agent: R.Agent) {
    id in s.attempts && s.attempts[id].side == LocalSide(agent)
  }

  function IdentityOf(s: System, id: string, pid: nat, createTime: real): ProcessIdentity
    requires id in s.attempts
  {
    ProcessIdentity(pid, createTime, id, s.attempts[id].target)
  }

  function WithSide(s: System, id: string, side: Side): System
    requires id in s.attempts
  {
    s.(attempts := s.attempts[id := s.attempts[id].(side := side)])
  }

  /** Can `ExecutionTarget.reap` of target `t` answer `confirmed_safe` for attempt `id`?
      An ssh target answers for the attempt it knows under that id, which is none at all
      when the attempt was launched elsewhere; a local target believes the identity. */
  predicate ReapConfirms(s: System, t: Target, id: string, identity: Option<ProcessIdentity>) {
    if t in s.ssh then
      id in s.attempts && s.attempts[id].target == t && s.attempts[id].side.RemoteSide?
      ==> R.Confirmed(s.attempts[id].side.protocol)
    else
      identity.Some? ==>
        && (identity.value.hostId == "local" || identity.value.hostId == t)
        && (identity.value.attemptId in s.attempts && s.attempts[identity.value.attemptId].side.LocalSide?
            ==> s.attempts[identity.value.attemptId].side.agent != R.Live)
  }

  /** Can `_reap_state` end so for the record `r` it was given? */
  predicate ReapAllowed(s: System, r: IssueState, reap: Reap) {
    match reap
    case Confirmed =>
      && ReapAttempt(r).Some?
      && ReapConfirms(s, ReapTarget(r, s.home), ReapAttempt(r).value, r.process)
    case _ => true
  }

  predicate RecordReapAllowed(s: System, reap: Reap) {
    ReapAllowed(s, s.rec, reap)
  }

  predicate TaskReapAllowed(s: System, id: string, local: IssueState, confirmed: bool) {
    confirmed ==> id in s.attempts && ReapConfirms(s, s.attempts[id].target, id, local.process)
  }

  predicate ExitAllowed(p: R.Attempt, t: Target, exit: RunExit) {
    match exit
    case Response(_, session, _) =>
      p.runner == R.RunAnswered(true) && (session.Some? ==> session.value.origin == t)
    case CancelExit(confirmed) => confirmed ==> R.Confirmed(p)
    case TimeoutExit(confirmed) => confirmed ==> R.Confirmed(p)
    case TransportExit(confirmed) => confirmed ==> R.Confirmed(p)
  }

  predicate TargetEnabled(s: System, e: TargetEvent) {
    match e
    case HostStep(id, pe) =>
      id in s.attempts && s.attempts[id].side.RemoteSide? && !pe.SendPrepare? && !pe.SendRun?
    case LocalExit(id) => id in s.attempts && s.attempts[id].side == LocalSide(R.Live)
  }

  predicate StartEnabled(s: System, e: StartEvent) {
    match e
    case Dispatch(t) => s.up && s.task.NoTask? && Dispatchable(s.rec.phase) && t != ""
    case Begin(id) => s.task.Dispatched? && id !in s.attempts && id != ""
    case EnterTry => s.task.Starting?
    case SendPrepare =>
      s.task.Preparing? && OnSsh(s, s.task.id) && s.attempts[s.task.id].side.protocol.prepare.PrepareUnsent?
    case WorkspaceReady(_, _) =>
      s.task.Preparing? && s.task.id in s.attempts
      && (OnSsh(s, s.task.id) ==> s.attempts[s.task.id].side.protocol.prepare == R.PrepareAnswered(true))
    case LaunchCancelled(_) => s.task.Launching?
    case SendRun =>
      s.task.Launching? && OnSsh(s, s.task.id) && R.Enabled(s.attempts[s.task.id].side.protocol, R.SendRun)
    case SpawnLocal(_, _) => s.task.Launching? && OnLocal(s, s.task.id, R.NotSpawned)
    case SpawnFailed => s.task.Launching? && OnLocal(s, s.task.id, R.NotSpawned)
  }

  predicate FinishEnabled(s: System, e: FinishEvent) {
    match e
    case RecordSpawn => s.task.Spawned?
    case MissSpawn => s.task.Spawned? && OnLocal(s, s.task.id, R.Exited)
    case RemoteStarted(_, _) =>
      s.task.Executing? && OnSsh(s, s.task.id) && s.attempts[s.task.id].side.protocol.agent != R.NotSpawned
    case StartedWhileStopping(_, _) =>
      s.task.Stopping? && s.task.unsettled && s.task.local.process.None? && OnSsh(s, s.task.id)
      && s.attempts[s.task.id].side.protocol.agent != R.NotSpawned
    case RemoteReturn(exit) =>
      s.task.Executing? && OnSsh(s, s.task.id)
      && ExitAllowed(s.attempts[s.task.id].side.protocol, s.attempts[s.task.id].target, exit)
    case LocalReturn(_, session, _) =>
      s.task.Executing? && OnLocal(s, s.task.id, R.Exited)
      && (session.Some? ==> session.value.origin == s.attempts[s.task.id].target)
    case SettleUnsafe => s.task.Settling?
    case Finish(_, _) => s.task.Finishing?
    case Interrupt(fault, unsettled) =>
      (unsettled ==> s.task.Executing? && OnSsh(s, s.task.id)) &&
      (|| s.task.Preparing? || s.task.Launching? || s.task.Executing? || s.task.Finishing? || s.task.Settling?
      || (!fault && (s.task.Dispatched? || s.task.Starting?)))
    case Stopped(confirmed, _) =>
      s.task.Stopping? && TaskReapAllowed(s, s.task.id, s.task.local, confirmed)
    case HandlerDies => s.task.Stopping?
    case TaskDone => s.task.Ending?
  }

  /** The polling loop may run: spawning a local agent and saving its identity is one stretch of code. */
  predicate LoopRuns(s: System) {
    s.up && !s.task.Spawned?
  }

  predicate LoopEnabled(s: System, e: LoopEvent) {
    match e
    // a dispatched task begins before the next tick loads records
    case LoadBlocked => LoopRuns(s) && !s.task.Dispatched?
    case ReapBlocked(reap) =>
      LoopRuns(s) && s.pass.BlockedPass? && !s.pass.reaped && ExecutorBlocked(s.pass.copy)
      && ReapAllowed(s, s.pass.copy, reap)
    case Unblock(_) => LoopRuns(s) && s.pass.BlockedPass? && s.pass.reaped
    case ReleasePlacement =>
      LoopRuns(s) && s.pass.BlockedPass? && !s.pass.reaped
      && s.pass.copy.phase == Blocked && s.pass.copy.lastOutcome == PlacementBlocked
    case LoadWaiting => LoopRuns(s) && !s.task.Dispatched?
    case RefreshWaiting =>
      s.up && s.task.NoTask? && s.pass.WaitingPass? && s.pass.copy.phase != Released && s.pass.copy.phase != Blocked
    case ReleaseWaiting =>
      s.up && s.task.NoTask? && s.pass.WaitingPass? && s.pass.copy.phase != Released && s.pass.copy.phase != Blocked
    case Reactivate => LoopRuns(s) && s.rec.phase == Released
    case LoadStale => s.up && s.task.NoTask? && s.rec.phase == Running
    case ReapStale(reap) => s.up && s.task.NoTask? && s.pass.StalePass? && ReapAllowed(s, s.pass.copy, reap)
    case ReleaseStale => s.up && s.task.NoTask? && s.pass.StalePass? && ReapAllowed(s, s.pass.copy, Confirmed)
    case RefusePlacement => s.up && s.task.NoTask? && s.rec.phase != Running
    case RestorePlacement =>
      s.up && s.task.NoTask? && s.rec.phase == Blocked && s.rec.lastOutcome == PlacementBlocked
    case LateStart(held, _, _) =>
      LoopRuns(s) && held in s.late && held.process.None?  // it hears of its process once
      && held.lastAttemptId.Some? && OnSsh(s, held.lastAttemptId.value)
      && s.attempts[held.lastAttemptId.value].side.protocol.agent != R.NotSpawned
    case Crash => true
    case RecoverReap(reap) => !s.up && s.task.NoTask? && NeedsReap(s.rec) && RecordReapAllowed(s, reap)
    case Recover(reap, _) => !s.up && s.task.NoTask? && (NeedsReap(s.rec) ==> RecordReapAllowed(s, reap))
  }

  /** Can the event happen? */
  predicate Enabled(s: System, e: Event) {
    match e
    case OnTarget(t) => TargetEnabled(s, t)
    case InStart(b) => StartEnabled(s, b)
    case InFinish(f) => FinishEnabled(s, f)
    case InLoop(l) => LoopEnabled(s, l)
  }

  // ----- steps

  /** The task saves its record. */
  function Saved(s: System, r: IssueState): System {
    s.(rec := r, memory := None)
  }

  /** Somebody else saves a record of the issue; a task keeps its own in memory. */
  function Overwritten(s: System, r: IssueState): System {
    s.(rec := r, memory := if HoldsRecord(s.task) then Some(Own(s)) else None)
  }

  function SafeReturn(s: System, id: string, mode: Mode, result: AgentResult): System {
    if result.executorSafe then
      Saved(s, ReportedSafe(Own(s), result, Own(s).totalAttempts + 1)).(task := Finishing(id, mode, result))
    else
      s.(task := Settling(id, ReportedUnsafe(Own(s), result, Own(s).totalAttempts + 1)))
  }

  function Interrupted(s: System, fault: bool, unsettled: bool): System {
    match s.task
    case Finishing(id, _, _) => s.(task := Stopping(id, Own(s), Own(s).totalAttempts, fault, false))
    case Settling(id, local) => s.(task := Stopping(id, local, local.totalAttempts, fault, false))
    case Preparing(id) => s.(task := Stopping(id, Own(s), Own(s).totalAttempts + 1, fault, false))
    case Launching(id, _) => s.(task := Stopping(id, Own(s), Own(s).totalAttempts + 1, fault, false))
    case Executing(id, _) => s.(task := Stopping(id, Own(s), Own(s).totalAttempts + 1, fault, unsettled))
    case _ => s.(task := NoTask, memory := None)  // before the `try`: no handler runs
  }

  /** The task is over; a request left behind keeps hold of its record. */
  function Abandons(s: System, r: IssueState): System
    requires s.task.Stopping?
  {
    if s.task.unsettled then s.(late := s.late + {r}) else s
  }

  /** What the end of an attempt adds to the history: a failure, if the tracker cannot be
      asked or the attempt failed, and a clean turn after a clean exit; but nothing for an
      issue that is no longer active, or for an attempt that was cancelled. */
  function MarksOf(outcome: AttemptOutcome, answer: TrackerAnswer): seq<Mark> {
    match answer
    case TrackerFailed => [Fail]
    case Found(disposition) =>
      if disposition != Active then []
      else match outcome
           case CleanExit => [Clean]
           case Cancelled => []
           case Failed => [Fail]
           case TimedOut => [Fail]
  }

  function TargetStep(s: System, e: TargetEvent): System
    requires TargetEnabled(s, e)
  {
    match e
    case HostStep(id, pe) => WithSide(s, id, RemoteSide(R.Next(s.attempts[id].side.protocol, pe)))
    case LocalExit(id) => WithSide(s, id, LocalSide(R.Exited))
  }

  function StartStep(s: System, e: StartEvent): System
    requires StartEnabled(s, e)
  {
    match e
    case Dispatch(t) =>
      s.(rec := Claimed(s.rec, t), task := Dispatched(t), pass := NoPass,
         history := s.history + if TargetChanges(s.rec, t) then [Move] else [])
    case Begin(id) =>
      var t := s.task.target;
      s.(rec := Started(s.rec, id, t), task := Starting(id),
         attempts := s.attempts[id := Attempt(t, if t in s.ssh then RemoteSide(R.FRESH) else LocalSide(R.NotSpawned))])
    case EnterTry => s.(task := Preparing(s.task.id))
    case SendPrepare =>
      WithSide(s, s.task.id, RemoteSide(R.Next(s.attempts[s.task.id].side.protocol, R.SendPrepare)))
    case WorkspaceReady(path, supportsNative) =>
      Saved(s, Own(s).(workspacePath := Some(path)))
        .(task := Launching(s.task.id, ContinuationMode(Own(s), supportsNative)))
    case LaunchCancelled(summary) =>
      SafeReturn(s, s.task.id, s.task.mode, AgentResult(Cancelled, Own(s).session, summary, true))
    case SendRun =>
      WithSide(s, s.task.id, RemoteSide(R.Next(s.attempts[s.task.id].side.protocol, R.SendRun)))
        .(task := Executing(s.task.id, s.task.mode))
    case SpawnLocal(pid, createTime) =>
      WithSide(s, s.task.id, LocalSide(R.Live))
        .(task := Spawned(s.task.id, s.task.mode, IdentityOf(s, s.task.id, pid, createTime)))
    case SpawnFailed => SafeReturn(s, s.task.id, s.task.mode, AgentResult(Failed, Own(s).session, "", true))
  }

  function FinishStep(s: System, e: FinishEvent): System
    requires FinishEnabled(s, e)
  {
    match e
    case RecordSpawn =>
      Saved(s, Own(s).(process := Some(s.task.identity))).(task := Executing(s.task.id, s.task.mode))
    case MissSpawn => s.(task := Executing(s.task.id, s.task.mode))
    case RemoteStarted(pid, createTime) =>
      Saved(s, Own(s).(process := Some(IdentityOf(s, s.task.id, pid, createTime))))
    case StartedWhileStopping(pid, createTime) =>
      var local := s.task.local.(process := Some(IdentityOf(s, s.task.id, pid, createTime)));
      Saved(s, local).(task := s.task.(local := local, unsettled := false))
    case RemoteReturn(exit) => SafeReturn(s, s.task.id, s.task.mode, RunResult(exit, Own(s).session))
    case LocalReturn(outcome, session, summary) =>
      SafeReturn(s, s.task.id, s.task.mode, AgentResult(outcome, session, summary, true))
    case SettleUnsafe => Saved(s, s.task.local).(task := Ending)
    case Finish(answer, times) =>
      var r := Finished(Own(s), s.task.result, s.task.mode, answer, times);
      Saved(s, r).(task := Ending, history := s.history + MarksOf(s.task.result.outcome, answer))
    case Interrupt(fault, unsettled) => Interrupted(s, fault, unsettled)
    case Stopped(confirmed, times) =>
      var r := if s.task.fault then TaskFailed(s.task.local, s.task.number, confirmed, times.retryAt)
               else TaskCancelled(s.task.local, confirmed, times.now);
      Saved(Abandons(s, r), r).(task := Ending, history := s.history + if s.task.fault && confirmed then [Fail] else [])
    case HandlerDies => Abandons(s, s.task.local).(task := NoTask, memory := None)
    case TaskDone => s.(task := NoTask)
  }

  function LoopStep(s: System, e: LoopEvent): System
    requires LoopEnabled(s, e)
  {
    match e
    case LoadBlocked => s.(pass := BlockedPass(s.rec, false))
    case ReapBlocked(reap) =>
      var copy := Reaped(s.pass.copy, reap);
      Overwritten(s, copy).(pass := if reap == Confirmed then BlockedPass(copy, true) else NoPass)
    case Unblock(answer) => Overwritten(s, Unblocked(s.pass.copy, answer)).(pass := NoPass)
    case ReleasePlacement => Overwritten(s, PlacementBlockReleasedByTracker(s.pass.copy)).(pass := NoPass)
    case LoadWaiting => s.(pass := WaitingPass(s.rec))
    case RefreshWaiting => Overwritten(s, s.pass.copy).(pass := NoPass)
    case ReleaseWaiting => Overwritten(s, WaitingReleased(s.pass.copy)).(pass := NoPass)
    case Reactivate => s.(rec := Reactivated(s.rec))
    case LoadStale => s.(pass := StalePass(s.rec))
    case ReapStale(reap) => Overwritten(s, Reaped(s.pass.copy, reap)).(pass := NoPass)
    case ReleaseStale => Overwritten(s, StaleRunningReleased(Reaped(s.pass.copy, Confirmed))).(pass := NoPass)
    case RefusePlacement => s.(rec := PlacementRefused(s.rec))
    case RestorePlacement => s.(rec := PlacementRestored(s.rec))
    case LateStart(held, pid, createTime) =>
      var identity := IdentityOf(s, held.lastAttemptId.value, pid, createTime);
      Overwritten(s, held.(process := Some(identity))).(late := s.late - {held})
    case Crash => s.(task := NoTask, memory := None, late := {}, up := false, pass := NoPass)
    case RecoverReap(reap) => s.(rec := Reaped(s.rec, reap))
    case Recover(reap, answer) => s.(rec := Recovered(AfterReap(s.rec, reap), answer), up := true)
  }

  /** One step of the issue; an event that cannot happen changes nothing. */
  function Next(s: System, e: Event): System {
    match e
    case OnTarget(t) => if TargetEnabled(s, t) then TargetStep(s, t) else s
    case InStart(b) => if StartEnabled(s, b) then StartStep(s, b) else s
    case InFinish(f) => if FinishEnabled(s, f) then FinishStep(s, f) else s
    case InLoop(l) => if LoopEnabled(s, l) then LoopStep(s, l) else s
  }

  // ----- lapses and hazards

  /** No agent of the issue runs, and no request already sent can start one. */
  predicate Quiescent(s: System) {
    forall id | id in s.attempts :: Quiet(s.attempts[id].side)
  }

  /** What the code does although it may concern an executor it has not accounted for. */
  predicate Lapse(s: System, e: Event) {
    match e
    // a remote helper dies while its agent is known only through it
    case OnTarget(HostStep(id, pe)) =>
      TargetEnabled(s, e.t) && R.Hazard(s.attempts[id].side.protocol, pe)
    case InLoop(l) => LoopLapse(s, l)
    case _ => false
  }

  /** The record names an ssh target: a reap of it does not need the evidence of a process. */
  predicate NamesSsh(s: System, r: IssueState) {
    r.executionTarget.Some? && r.executionTarget.value in s.ssh
  }

  /** The copy of the pass is no longer the saved record, but for the process a request left
      behind may have recorded meanwhile. */
  predicate Outdated(s: System)
    requires !s.pass.NoPass?
  {
    s.pass.copy != s.rec && !(s.pass.copy == s.rec.(process := s.pass.copy.process) && NamesSsh(s, s.rec))
  }

  predicate LoopLapse(s: System, l: LoopEvent) {
    LoopEnabled(s, l) &&
    match l
    // the labels of an issue turn invalid while its executor may still run
    case RefusePlacement => ExecutorBlocked(s.rec)
    // a pass saves the copy it loaded over a record saved since
    case ReapBlocked(_) => Outdated(s)
    case Unblock(_) => Outdated(s)
    case ReleasePlacement => Outdated(s)
    case RefreshWaiting => s.pass.copy != s.rec
    case ReapStale(_) => s.pass.copy != s.rec
    case ReleaseStale => s.pass.copy != s.rec
    // or releases an issue whose record is RUNNING although it has no task
    case ReleaseWaiting => s.pass.copy != s.rec || s.rec.phase == Running
    // a request left behind saves its record over another one, or a process into one that is settled
    case LateStart(held, _, _) =>
      !(&& s.rec == held && !HoldsRecord(s.task) && !s.task.Dispatched?
        && (held.phase == Running || ExecutorBlocked(held)))
    // the scheduler dies between a local spawn and the save of its identity
    case Crash => s.task.Spawned? && OnLocal(s, s.task.id, R.Live)
    case _ => false
  }

  /** A record still leads to the executor: it names its attempt and, on a local target, has
      the evidence of the process. */
  predicate StillTracks(s: System, r: IssueState) {
    r.lastAttemptId == Own(s).lastAttemptId && (r.process.Some? || NamesSsh(s, r))
  }

  /** The task is about to send a `run` request that nothing stops and nothing saves. */
  predicate AboutToRun(s: System) {
    s.task.Launching? && OnSsh(s, s.task.id) && !s.attempts[s.task.id].side.protocol.tombstone
  }

  /** A lapse that loses track of an executor that may run. */
  predicate Hazard(s: System, e: Event) {
    Lapse(s, e) &&
    match e
    case InLoop(RefreshWaiting) => !Quiescent(s) && !StillTracks(s, s.pass.copy)
    // nothing is dispatched since this copy was loaded: it still tracks
    case InLoop(ReapStale(_)) => false
    case InLoop(ReleaseStale) => false
    case InLoop(ReapBlocked(_)) => (!Quiescent(s) || AboutToRun(s)) && !StillTracks(s, s.pass.copy)
    case InLoop(LateStart(held, _, _)) => (!Quiescent(s) || AboutToRun(s)) && held.lastAttemptId != Own(s).lastAttemptId
    case InLoop(_) => !Quiescent(s) || AboutToRun(s)
    case _ => !Quiescent(s)
  }

  function Exec(s: System, es: seq<Event>): System {
    if es == [] then s else Next(Exec(s, es[..|es| - 1]), es[|es| - 1])
  }

  /** No event of the run is a hazard in the state it meets. */
  predicate SafeRun(s: System, es: seq<Event>) {
    es == [] || (SafeRun(s, es[..|es| - 1]) && !Hazard(Exec(s, es[..|es| - 1]), es[|es| - 1]))
  }

  ghost predicate Reaches(s: System, t: System) {
    exists es :: SafeRun(s, es) && Exec(s, es) == t
  }

  /** No event of the run is a lapse in the state it meets. */
  predicate OrderlyRun(s: System, es: seq<Event>) {
    es == [] || (OrderlyRun(s, es[..|es| - 1]) && !Lapse(Exec(s, es[..|es| - 1]), es[|es| - 1]))
  }

  ghost predicate ReachesOrderly(s: System, t: System) {
    exists es :: OrderlyRun(s, es) && Exec(s, es) == t
  }
}
