/**
 The well-formed record and its counters.  Runs without lapses keep the record in order at
 every step; containment alone, which needs less, is in `Containment`.
 */
module ControlInvariant {
  import opened Wrappers
  import opened IssueRecords
  import opened ControlPlane
  import opened History
  import opened Containment
  import opened ContainmentSteps

  // ----- counters against the history

  predicate CountersMatch(r: IssueState, h: seq<Mark>) {
    r.failureCount == FailuresSinceClean(h) && r.continuationIndex == CleansSinceBreak(h)
  }

  // ----- the record by itself

  predicate RecordOk(r: IssueState) {
    && (r.process.Some? ==>
          && (r.phase == Running || ExecutorBlocked(r))
          && r.lastAttemptId == Some(r.process.value.attemptId)
          && r.executionTarget == Some(r.process.value.hostId))
    && (r.lastOutcome == PlacementBlocked ==> r.phase == Blocked)
    && (r.phase == Released ==> r.nextRunAt.None? && r.process.None?)
    && (r.session.Some? ==>
          r.totalAttempts >= 1 && r.session.value.text != "" && r.executionTarget == Some(r.session.value.origin))
    && (r.phase == Running ==> r.lastAttemptId.Some? && r.executionTarget.Some?)
    && r.executionTarget != Some("") && r.lastAttemptId != Some("")
    && (r.failureCount == 0 || r.continuationIndex == 0)
  }

  // ----- the record against the attempts and the task

  /** A reap of the record is sent to the target where its attempt was launched. */
  predicate Addressed(s: System) {
    s.rec.phase == Running || ExecutorBlocked(s.rec) ==> Leads(s.rec, s.attempts)
  }

  predicate Coherent(local: IssueState, r: IssueState) {
    && SameEvidence(local, r)
    && local.failureCount == r.failureCount && local.continuationIndex == r.continuationIndex
    && (local.session.Some? ==>
          local.totalAttempts >= 1 && local.session.value.text != ""
          && local.executionTarget == Some(local.session.value.origin))
  }

  predicate TaskTidy(s: System) {
    match s.task
    case Dispatched(target) => s.rec.executionTarget == Some(target) && Dispatchable(s.rec.phase)
    case Launching(_, mode) => mode == NativeResume ==> s.rec.session.Some?
    case Spawned(_, mode, _) => mode == NativeResume ==> s.rec.session.Some?
    case Executing(_, mode) => mode == NativeResume ==> s.rec.session.Some?
    case Finishing(_, _, _) => s.rec.process.None? && s.rec.totalAttempts >= 1
    case Settling(_, local) => Coherent(local, s.rec) && ExecutorBlocked(local) && local.totalAttempts >= 1
    case Stopping(_, local, number, _, unsettled) =>
      Coherent(local, s.rec) && number >= 1 && (unsettled ==> local == s.rec)
    case _ => true
  }

  /** A request left behind by the record's attempt has no process to report any more once
      the record has one. */
  predicate Heard(s: System, r: IssueState) {
    r.process.Some? ==> forall q | q in s.late && q.lastAttemptId == r.lastAttemptId :: q.process.Some?
  }

  predicate PassTidy(s: System) {
    !s.pass.NoPass? ==> RecordOk(s.pass.copy) && (ExecutorBlocked(s.pass.copy) ==> Heard(s, s.pass.copy))
  }

  predicate Tidy(s: System) {
    && s.memory.None? && RecordOk(s.rec) && CountersMatch(s.rec, s.history) && Addressed(s) && TaskTidy(s)
    && Heard(s, s.rec) && PassTidy(s)
  }

  ghost predicate Inv(s: System) {
    Contained(s) && Tidy(s)
  }

  lemma InitInv(ssh: set<Target>, home: Target)
    ensures Inv(Init(ssh, home))
  {
    InitContained(ssh, home);
  }

  // ----- what the saves of a task make of a well-formed record

  lemma FinishedRecord(r: IssueState, f: IssueState, result: AgentResult, mode: Mode, answer: TrackerAnswer, t: Times)
    requires RecordOk(r) && r.phase == Running && r.process.None? && f == Finished(r, result, mode, answer, t)
    ensures RecordOk(f) && f.phase != Running && f.phase != Blocked
    ensures f.lastAttemptId == r.lastAttemptId && f.process.None?
  {}

  /** The counters go by what happened: a failure, a clean turn, or neither. */
  predicate Counted(r: IssueState, f: IssueState, marks: seq<Mark>) {
    if marks == [Fail] then f.failureCount == r.failureCount + 1 && f.continuationIndex == 0
    else if marks == [Clean] then f.failureCount == 0 && f.continuationIndex == r.continuationIndex + 1
    else marks == [] && f.failureCount == r.failureCount && f.continuationIndex == r.continuationIndex
  }

  lemma FinishedIsCounted(r: IssueState, f: IssueState, result: AgentResult, mode: Mode, answer: TrackerAnswer,
                          t: Times)
    requires f == Finished(r, result, mode, answer, t)
    ensures Counted(r, f, MarksOf(result.outcome, answer))
  {}

  lemma FinishedCounters(r: IssueState, f: IssueState, h: seq<Mark>, marks: seq<Mark>)
    requires CountersMatch(r, h) && Counted(r, f, marks)
    ensures CountersMatch(f, h + marks)
  {
    if marks == [] {
      assert h + [] == h;
    } else {
      CountAfter(h, marks[0]);
    }
  }

  lemma CancelledRecord(r: IssueState, local: IssueState, f: IssueState, confirmed: bool, now: real)
    requires RecordOk(r) && r.phase == Running && Coherent(local, r) && f == TaskCancelled(local, confirmed, now)
    ensures RecordOk(f) && f.phase != Running && (confirmed || ExecutorBlocked(f))
    ensures f.lastAttemptId == r.lastAttemptId && f.executionTarget == r.executionTarget
    ensures if confirmed then f.process.None? && f.phase == Ready else f.process == r.process
    ensures f.failureCount == r.failureCount && f.continuationIndex == r.continuationIndex
  {}

  lemma FailedRecord(r: IssueState, local: IssueState, f: IssueState, number: nat, confirmed: bool, at: real)
    requires RecordOk(r) && r.phase == Running && Coherent(local, r) && number >= 1
    requires f == TaskFailed(local, number, confirmed, at)
    ensures RecordOk(f) && f.phase != Running && (confirmed || ExecutorBlocked(f))
    ensures f.lastAttemptId == r.lastAttemptId && f.executionTarget == r.executionTarget
    ensures if confirmed then f.process.None? && f.phase == RetryWait else f.process == r.process
    ensures f.failureCount == r.failureCount + (if confirmed then 1 else 0)
    ensures f.continuationIndex == if confirmed then 0 else r.continuationIndex
  {}

  // ----- preservation, one kind of step at a time; `t` is the state after the step

  lemma StartKeepsTidy(s: System, t: System, e: StartEvent)
    requires Inv(s) && StartEnabled(s, e) && t == StartStep(s, e)
    ensures Tidy(t)
  {
    match e
    case Dispatch(target) => DispatchKeepsTidy(s, t, target);
    case Begin(_) =>
    case _ =>
  }

  lemma DispatchKeepsTidy(s: System, t: System, target: Target)
    requires Inv(s) && StartEnabled(s, Dispatch(target)) && t == StartStep(s, Dispatch(target))
    ensures Tidy(t)
  {
    if TargetChanges(s.rec, target) {
      CountAfter(s.history, Move);
    } else {
      assert s.history + [] == s.history;
    }
  }

  lemma LastSaveKeepsTidy(s: System, t: System, answer: TrackerAnswer, times: Times)
    requires Inv(s) && FinishEnabled(s, Finish(answer, times)) && t == FinishStep(s, Finish(answer, times))
    ensures Tidy(t)
  {
    FinishedRecord(s.rec, t.rec, s.task.result, s.task.mode, answer, times);
    FinishedIsCounted(s.rec, t.rec, s.task.result, s.task.mode, answer, times);
    FinishedCounters(s.rec, t.rec, s.history, MarksOf(s.task.result.outcome, answer));
  }

  lemma StoppedKeepsTidy(s: System, t: System, confirmed: bool, times: Times)
    requires Inv(s) && FinishEnabled(s, Stopped(confirmed, times)) && t == FinishStep(s, Stopped(confirmed, times))
    ensures Tidy(t)
  {
    StoppedRecord(s, t, confirmed, times);
    StoppedCounters(s.rec, t.rec, s.task.fault && confirmed, s.history, t.history);
    EndingIsTidy(s, t);
  }

  lemma EndingIsTidy(s: System, t: System)
    requires Inv(s) && s.task.Stopping? && t.task == Ending && t.attempts == s.attempts && t.memory.None?
    requires t.pass == s.pass && t.late == if s.task.unsettled then s.late + {t.rec} else s.late
    requires RecordOk(t.rec) && CountersMatch(t.rec, t.history)
    requires (t.rec.process.None? || t.rec.process == s.rec.process)
    requires t.rec.lastAttemptId == s.rec.lastAttemptId && t.rec.executionTarget == s.rec.executionTarget
    ensures Tidy(t)
  {
    HeardStays(s, t, t.rec);
  }

  /** A copy of a blocked record is not of the attempt that leaves its request behind. */
  lemma HeardStays(s: System, t: System, left: IssueState)
    requires Contained(s) && Tidy(s) && HoldsRecord(s.task) && t.pass == s.pass
    requires t.late == s.late || (t.late == s.late + {left} && left.lastAttemptId == s.rec.lastAttemptId)
    ensures PassTidy(t)
  {}

  lemma StoppedRecord(s: System, t: System, confirmed: bool, times: Times)
    requires Inv(s) && FinishEnabled(s, Stopped(confirmed, times)) && t == FinishStep(s, Stopped(confirmed, times))
    ensures RecordOk(t.rec) && t.rec.phase != Running && (t.rec.process.None? || t.rec.process == s.rec.process)
    ensures t.rec.lastAttemptId == s.rec.lastAttemptId && t.rec.executionTarget == s.rec.executionTarget
    ensures t.rec.failureCount == s.rec.failureCount + (if s.task.fault && confirmed then 1 else 0)
    ensures t.rec.continuationIndex == if s.task.fault && confirmed then 0 else s.rec.continuationIndex
  {
    if s.task.fault {
      FailedRecord(s.rec, s.task.local, t.rec, s.task.number, confirmed, times.retryAt);
    } else {
      CancelledRecord(s.rec, s.task.local, t.rec, confirmed, times.now);
    }
  }

  lemma StoppedCounters(r: IssueState, f: IssueState, failed: bool, h: seq<Mark>, g: seq<Mark>)
    requires CountersMatch(r, h) && g == h + if failed then [Fail] else []
    requires f.failureCount == r.failureCount + (if failed then 1 else 0)
    requires f.continuationIndex == if failed then 0 else r.continuationIndex
    ensures CountersMatch(f, g)
  {
    if failed {
      CountAfter(h, Fail);
    } else {
      assert h + [] == h;
    }
  }

  /** The handler starts from the record in the task's memory. */
  lemma InterruptedIsCoherent(s: System, t: System, fault: bool, unsettled: bool)
    requires TaskFits(s) && TaskTidy(s) && s.memory.None? && RecordOk(s.rec)
    requires FinishEnabled(s, Interrupt(fault, unsettled)) && t == FinishStep(s, Interrupt(fault, unsettled))
    ensures t == s.(task := t.task) && (t.task.Stopping? || t.task.NoTask?) && TaskTidy(t)
  {
    if t.task.Stopping? && !s.task.Settling? {
      assert Coherent(s.rec, s.rec);
    }
  }

  lemma InterruptKeepsTidy(s: System, t: System, fault: bool, unsettled: bool)
    requires Inv(s) && FinishEnabled(s, Interrupt(fault, unsettled))
    requires t == FinishStep(s, Interrupt(fault, unsettled))
    ensures Tidy(t)
  {
    InterruptedIsCoherent(s, t, fault, unsettled);
  }

  lemma FinishKeepsTidy(s: System, t: System, e: FinishEvent)
    requires Inv(s) && FinishEnabled(s, e) && t == FinishStep(s, e)
    ensures Tidy(t)
  {
    match e
    case Finish(answer, times) => LastSaveKeepsTidy(s, t, answer, times);
    case Stopped(confirmed, times) => StoppedKeepsTidy(s, t, confirmed, times);
    case Interrupt(fault, unsettled) => InterruptKeepsTidy(s, t, fault, unsettled);
    case HandlerDies => HandlerDiesKeepsTidy(s, t);
    case RemoteReturn(exit) => RemoteReturnKeepsTidy(s, t, exit);
    case LocalReturn(_, _, _) => LocalReturnKeepsTidy(s, t, e);
    case SettleUnsafe => EndKeepsTidy(s, t, e);
    case TaskDone => EndKeepsTidy(s, t, e);
    case _ => StartedKeepsTidy(s, t, e);
  }

  lemma HandlerDiesKeepsTidy(s: System, t: System)
    requires Inv(s) && FinishEnabled(s, HandlerDies) && t == FinishStep(s, HandlerDies)
    ensures Tidy(t)
  {
    HeardStays(s, t, s.task.local);
  }

  lemma EndKeepsTidy(s: System, t: System, e: FinishEvent)
    requires Inv(s) && FinishEnabled(s, e) && (e.SettleUnsafe? || e.TaskDone?) && t == FinishStep(s, e)
    ensures Tidy(t)
  {}

  lemma StartedKeepsTidy(s: System, t: System, e: FinishEvent)
    requires Inv(s) && FinishEnabled(s, e)
    requires (e.RecordSpawn? || e.MissSpawn? || e.RemoteStarted? || e.StartedWhileStopping?)
    requires t == FinishStep(s, e)
    ensures Tidy(t)
  {}

  /** The result of an attempt, entered into the record of its task. */
  lemma ReportedRecord(r: IssueState, result: AgentResult, number: nat)
    requires RecordOk(r) && r.phase == Running && number >= 1
    requires result.session.Some? ==> r.executionTarget == Some(result.session.value.origin)
    ensures RecordOk(ReportedSafe(r, result, number)) && ReportedSafe(r, result, number).phase == Running
    ensures Coherent(ReportedUnsafe(r, result, number), r) && ExecutorBlocked(ReportedUnsafe(r, result, number))
  {}

  lemma ReturnKeepsTidy(s: System, t: System, result: AgentResult)
    requires Inv(s) && s.task.Executing? && t == SafeReturn(s, s.task.id, s.task.mode, result)
    requires result.session.Some? ==> s.rec.executionTarget == Some(result.session.value.origin)
    ensures Tidy(t)
  {
    ReportedRecord(s.rec, result, s.rec.totalAttempts + 1);
  }

  lemma RemoteReturnKeepsTidy(s: System, t: System, exit: RunExit)
    requires Inv(s) && FinishEnabled(s, RemoteReturn(exit)) && t == FinishStep(s, RemoteReturn(exit))
    ensures Tidy(t)
  {
    var result := RunResult(exit, s.rec.session);
    assert result.session.Some? ==> s.rec.executionTarget == Some(result.session.value.origin);
    ReturnKeepsTidy(s, t, result);
  }

  lemma LocalReturnKeepsTidy(s: System, t: System, e: FinishEvent)
    requires Inv(s) && e.LocalReturn? && FinishEnabled(s, e) && t == FinishStep(s, e)
    ensures Tidy(t)
  {
    ReturnKeepsTidy(s, t, AgentResult(e.outcome, e.session, e.summary, true));
  }

  lemma ReapedRecord(r: IssueState, f: IssueState, reap: Reap)
    requires RecordOk(r) && (r.phase == Running || ExecutorBlocked(r)) && f == Reaped(r, reap)
    ensures RecordOk(f) && (f.phase == Running || ExecutorBlocked(f))
    ensures f.lastAttemptId == r.lastAttemptId && f.executionTarget == r.executionTarget
    ensures f.failureCount == r.failureCount && f.continuationIndex == r.continuationIndex
    ensures if reap == Confirmed then f.phase == r.phase && f.process.None?
            else f.phase == Blocked && f.process == r.process
  {}

  lemma AfterReapRecord(r: IssueState, a: IssueState, reap: Reap)
    requires RecordOk(r) && a == AfterReap(r, reap)
    ensures a == if r.phase == Running || ExecutorBlocked(r) then
                   r.(phase := if reap == Confirmed then Ready else Blocked,
                      process := if reap == Confirmed then None else r.process,
                      nextRunAt := if reap == Unconfirmed then None else r.nextRunAt)
                 else r
  {}

  lemma RecoveredRecord(r: IssueState, a: IssueState, f: IssueState, reap: Reap, answer: TrackerAnswer)
    requires RecordOk(r) && a == AfterReap(r, reap) && f == Recovered(a, answer)
    ensures RecordOk(f) && f.phase != Running
    ensures f.lastAttemptId == r.lastAttemptId && f.executionTarget == r.executionTarget && f.process == a.process
    ensures f.failureCount == r.failureCount && f.continuationIndex == r.continuationIndex
    ensures f.process == r.process || (f.process.None? && reap == Confirmed)
    ensures ExecutorBlocked(f) <==> (r.phase == Running || ExecutorBlocked(r)) && reap != Confirmed
  {
    AfterReapRecord(r, a, reap);
  }

  lemma ColdReapKeepsTidy(s: System, t: System, reap: Reap)
    requires Inv(s) && LoopEnabled(s, RecoverReap(reap)) && t == LoopStep(s, RecoverReap(reap))
    ensures Tidy(t)
  {
    ReapedRecord(s.rec, t.rec, reap);
  }

  lemma RecoverKeepsTidy(s: System, t: System, reap: Reap, answer: TrackerAnswer)
    requires Inv(s) && LoopEnabled(s, Recover(reap, answer)) && t == LoopStep(s, Recover(reap, answer))
    ensures Tidy(t)
  {
    RecoveredRecord(s.rec, AfterReap(s.rec, reap), t.rec, reap, answer);
  }

  // ----- the passes, saving a copy that is up to date

  /** The copy may lack, or still have, only the process. */
  lemma CopyOk(s: System)
    requires Inv(s) && !s.pass.NoPass? && !Outdated(s) && (s.pass.copy.phase == Running || ExecutorBlocked(s.pass.copy))
    ensures s.pass.copy == s.rec.(process := s.pass.copy.process) && Leads(s.pass.copy, s.attempts)
    ensures CountersMatch(s.pass.copy, s.history)
    ensures ExecutorBlocked(s.pass.copy) ==> s.task.NoTask? || s.task.Ending?
  {}

  lemma PassReapKeepsTidy(s: System, t: System, e: LoopEvent)
    requires Inv(s) && LoopEnabled(s, e) && (e.ReapBlocked? || e.ReapStale?) && !LoopLapse(s, e) && t == LoopStep(s, e)
    ensures Tidy(t)
  {
    CopyOk(s);
    ReapedRecord(s.pass.copy, t.rec, e.reap);
  }

  lemma ReleaseKeepsTidy(s: System, t: System, e: LoopEvent)
    requires Inv(s) && LoopEnabled(s, e) && (e.Unblock? || e.ReleaseStale?) && !LoopLapse(s, e) && t == LoopStep(s, e)
    ensures Tidy(t)
  {
    CopyOk(s);
    assert t.rec.process.None? && !ExecutorBlocked(t.rec) && t.rec.phase != Running;
  }

  lemma LateStartKeepsTidy(s: System, t: System, e: LoopEvent)
    requires Inv(s) && e.LateStart? && LoopEnabled(s, e) && !LoopLapse(s, e) && t == LoopStep(s, e)
    ensures Tidy(t)
  {
    assert Earlier(e.held, s.attempts);
  }

  lemma WaitingKeepsTidy(s: System, t: System, e: LoopEvent)
    requires Inv(s) && LoopEnabled(s, e) && (e.RefreshWaiting? || e.ReleaseWaiting? || e.ReleasePlacement?)
    requires !LoopLapse(s, e) && t == LoopStep(s, e)
    ensures Tidy(t)
  {}

  lemma LoopKeepsTidy(s: System, t: System, e: LoopEvent)
    requires Inv(s) && LoopEnabled(s, e) && !LoopLapse(s, e) && t == LoopStep(s, e)
    ensures Tidy(t)
  {
    if e.ReapBlocked? || e.ReapStale? {
      PassReapKeepsTidy(s, t, e);
    } else if e.Unblock? || e.ReleaseStale? {
      ReleaseKeepsTidy(s, t, e);
    } else if e.RefreshWaiting? || e.ReleaseWaiting? || e.ReleasePlacement? {
      WaitingKeepsTidy(s, t, e);
    } else if e.LateStart? {
      LateStartKeepsTidy(s, t, e);
    } else if e.RecoverReap? {
      ColdReapKeepsTidy(s, t, e.reap);
    } else if e.Recover? {
      RecoverKeepsTidy(s, t, e.reap, e.answer);
    } else {
      OtherLoopKeepsTidy(s, t, e);
    }
  }

  /** Loading, placement, reactivation and the death of the scheduler. */
  lemma OtherLoopKeepsTidy(s: System, t: System, e: LoopEvent)
    requires Inv(s) && LoopEnabled(s, e) && !LoopLapse(s, e) && t == LoopStep(s, e)
    requires e.LoadBlocked? || e.LoadWaiting? || e.LoadStale? || e.Reactivate? || e.RefusePlacement?
             || e.RestorePlacement? || e.Crash?
    ensures Tidy(t)
  {}

  lemma TargetKeepsTidy(s: System, t: System, e: TargetEvent)
    requires Inv(s) && TargetEnabled(s, e) && t == TargetStep(s, e)
    ensures Tidy(t)
  {}

  lemma StepKeepsInv(s: System, e: Event)
    requires Inv(s) && !Lapse(s, e)
    ensures Inv(Next(s, e))
  {
    StepContained(s, e);
    if Enabled(s, e) {
      var t := Next(s, e);
      match e
      case OnTarget(te) => TargetKeepsTidy(s, t, te);
      case InStart(b) => StartKeepsTidy(s, t, b);
      case InFinish(f) => FinishKeepsTidy(s, t, f);
      case InLoop(l) => LoopKeepsTidy(s, t, l);
    }
  }
}
