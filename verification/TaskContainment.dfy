/** Containment is kept by every step of the task of an attempt. */
module TaskContainment {
  import opened Wrappers
  import opened IssueRecords
  import opened ControlPlane
  import opened Containment
  import R = RemoteAttempt

  // ----- the frame of a step; `t` is the state after it

  /** The task goes on, or ends, with the same attempt. */
  lemma TaskStepContained(s: System, t: System)
    requires Contained(s) && t.attempts == s.attempts && t.ssh == s.ssh && t.pass == s.pass
    requires Own(t).lastAttemptId == Own(s).lastAttemptId && (HoldsRecord(t.task) ==> HoldsRecord(s.task))
    requires !s.task.NoTask?
    requires !t.task.Dispatched? && RecordsKnown(t) && LateKnown(t) && TaskFits(t) && (Quiescent(s) || Tracks(t))
    ensures Contained(t)
  {
    assert Quiescent(s) <==> Quiescent(t);
    assert PassKnown(t);
  }

  /** Without a change to the requests left behind. */
  lemma SameAttemptsContained(s: System, t: System)
    requires Contained(s) && t.attempts == s.attempts && t.ssh == s.ssh && t.pass == s.pass && t.late == s.late
    requires Own(t).lastAttemptId == Own(s).lastAttemptId && (HoldsRecord(t.task) ==> HoldsRecord(s.task))
    requires !s.task.NoTask?
    requires !t.task.Dispatched? && RecordsKnown(t) && TaskFits(t) && (Quiescent(s) || Tracks(t))
    ensures Contained(t)
  {
    TaskStepContained(s, t);
  }

  /** No executor runs, and the task is over. */
  lemma QuietEndContained(s: System, t: System)
    requires Contained(s) && Quiescent(s) && t.attempts == s.attempts && t.ssh == s.ssh && t.pass == s.pass
    requires LateKnown(t) && t.memory.None? && t.task.NoTask? && RecordKnown(t.rec, t.attempts)
    ensures Contained(t)
  {
    assert Quiescent(t) && PassKnown(t);
  }

  lemma OtherAttemptsOk(s: System, t: System, id: string)
    requires AttemptsOk(s.attempts, s.ssh) && s.ssh == t.ssh && id in s.attempts && id in t.attempts
    requires t.attempts == s.attempts[id := s.attempts[id].(side := t.attempts[id].side)]
    requires SideOk(t.attempts[id].side, s.attempts[id].target in s.ssh)
    ensures AttemptsOk(t.attempts, t.ssh)
  {
    forall i | i in t.attempts
      ensures AttemptOk(t.attempts, t.ssh, i)
    {
      assert AttemptOk(s.attempts, s.ssh, i);
    }
  }

  // ----- up to the launch

  lemma BeginContained(s: System, t: System, id: string)
    requires Contained(s) && StartEnabled(s, Begin(id)) && t == StartStep(s, Begin(id))
    ensures Contained(t)
  {
    R.FreshInv();
    forall i | i in t.attempts
      ensures AttemptOk(t.attempts, t.ssh, i) && Quiet(t.attempts[i].side)
    {
      assert i != id ==> AttemptOk(s.attempts, s.ssh, i);
    }
    forall r | r in t.late
      ensures Earlier(r, t.attempts)
    {
      assert Earlier(r, s.attempts);
    }
  }

  /** The `prepare` request, or the `run` request, leaves. */
  lemma SendPrepareContained(s: System, t: System)
    requires Contained(s) && StartEnabled(s, SendPrepare) && t == StartStep(s, SendPrepare)
    ensures Contained(t)
  {
    var id := s.task.id;
    assert AttemptOk(s.attempts, s.ssh, id);
    var p := s.attempts[id].side.protocol;
    R.StepKeepsInv(p, R.SendPrepare);
    ReplacedSideContained(s, t, id, RemoteSide(R.Next(p, R.SendPrepare)));
  }

  lemma SendRunContained(s: System, t: System)
    requires Contained(s) && StartEnabled(s, SendRun) && t == StartStep(s, SendRun)
    ensures Contained(t)
  {
    var id := s.task.id;
    assert AttemptOk(s.attempts, s.ssh, id);
    R.StepKeepsInv(s.attempts[id].side.protocol, R.SendRun);
    KnownStays(s, t);
    OtherAttemptsOk(s, t, id);
    if s.memory.Some? {
      SentIsQuiet(s, t);
    } else {
      SentTracks(s, t);
    }
  }

  lemma SentIsQuiet(s: System, t: System)
    requires Contained(s) && s.memory.Some? && StartEnabled(s, SendRun) && t == StartStep(s, SendRun)
    ensures Quiescent(t)
  {}

  lemma SentTracks(s: System, t: System)
    requires Contained(s) && s.memory.None? && StartEnabled(s, SendRun) && t == StartStep(s, SendRun)
    ensures Tracks(t)
  {}

  lemma SpawnContained(s: System, t: System, pid: nat, createTime: real)
    requires Contained(s) && StartEnabled(s, SpawnLocal(pid, createTime))
    requires t == StartStep(s, SpawnLocal(pid, createTime))
    ensures Contained(t)
  {
    var id := s.task.id;
    assert AttemptOk(s.attempts, s.ssh, id);
    KnownStays(s, t);
    OtherAttemptsOk(s, t, id);
  }

  lemma StartContained(s: System, t: System, e: StartEvent)
    requires Contained(s) && StartEnabled(s, e) && t == StartStep(s, e)
    ensures Contained(t)
  {
    match e
    case Begin(id) => BeginContained(s, t, id);
    case SendPrepare => SendPrepareContained(s, t);
    case SendRun => SendRunContained(s, t);
    case SpawnLocal(pid, createTime) => SpawnContained(s, t, pid, createTime);
    case Dispatch(_) => DispatchContained(s, t, e);
    case EnterTry => SameAttemptsContained(s, t);
    case WorkspaceReady(_, _) => SameAttemptsContained(s, t);
    case LaunchCancelled(_) => NotLaunchedContained(s, t, e);
    case SpawnFailed => NotLaunchedContained(s, t, e);
  }

  lemma NotLaunchedContained(s: System, t: System, e: StartEvent)
    requires Contained(s) && (e.LaunchCancelled? || e.SpawnFailed?) && StartEnabled(s, e) && t == StartStep(s, e)
    ensures Contained(t)
  {
    SameAttemptsContained(s, t);
  }

  lemma DispatchContained(s: System, t: System, e: StartEvent)
    requires Contained(s) && e.Dispatch? && StartEnabled(s, e) && t == StartStep(s, e)
    ensures Contained(t)
  {
    assert Quiescent(s) && Quiescent(t);
  }

  // ----- from the launch to the last save

  lemma RemoteReturnContained(s: System, t: System, exit: RunExit)
    requires Contained(s) && FinishEnabled(s, RemoteReturn(exit)) && t == FinishStep(s, RemoteReturn(exit))
    ensures Contained(t)
  {
    var id := s.task.id;
    assert AttemptOk(s.attempts, s.ssh, id);
    if RunResult(exit, Own(s).session).executorSafe {
      RunExitProves(s.attempts[id].side.protocol, s.attempts[id].target, exit, Own(s).session);
      TaskAttemptQuiet(s, id);
      SafeReturnContained(s, t, exit);
    } else {
      UnsafeReturnContained(s, t, exit);
    }
  }

  lemma SafeReturnContained(s: System, t: System, exit: RunExit)
    requires Contained(s) && FinishEnabled(s, RemoteReturn(exit)) && t == FinishStep(s, RemoteReturn(exit))
    requires Quiescent(s) && RunResult(exit, Own(s).session).executorSafe
    ensures Contained(t)
  {
    SameAttemptsContained(s, t);
  }

  lemma UnsafeReturnContained(s: System, t: System, exit: RunExit)
    requires Contained(s) && FinishEnabled(s, RemoteReturn(exit)) && t == FinishStep(s, RemoteReturn(exit))
    requires !RunResult(exit, Own(s).session).executorSafe
    ensures Contained(t)
  {
    assert t == s.(task := t.task);
    SameAttemptsContained(s, t);
  }

  /** The attempt of the task was the only one that could run. */
  lemma TaskAttemptQuiet(s: System, id: string)
    requires Contained(s) && Owns(s, id) && Quiet(s.attempts[id].side)
    ensures Quiescent(s)
  {}

  lemma LocalReturnContained(s: System, t: System, e: FinishEvent)
    requires Contained(s) && e.LocalReturn? && FinishEnabled(s, e) && t == FinishStep(s, e)
    ensures Contained(t)
  {
    TaskAttemptQuiet(s, s.task.id);
    SameAttemptsContained(s, t);
  }

  lemma StoppedContained(s: System, t: System, confirmed: bool, times: Times)
    requires Contained(s) && FinishEnabled(s, Stopped(confirmed, times))
    requires t == FinishStep(s, Stopped(confirmed, times))
    ensures Contained(t)
  {
    if confirmed {
      TaskReapProves(s, s.task.id, s.task.local);
    }
    HandlerSaves(s.task.local, t.rec, s.task.fault, s.task.number, confirmed, times);
    HandlerSaved(s, t, confirmed);
  }

  /** What a handler saves after its reap. */
  lemma HandlerSaves(local: IssueState, f: IssueState, fault: bool, number: nat, confirmed: bool, times: Times)
    requires local.lastOutcome != PlacementBlocked
    requires f == if fault then TaskFailed(local, number, confirmed, times.retryAt)
                  else TaskCancelled(local, confirmed, times.now)
    ensures f.lastAttemptId == local.lastAttemptId && f.executionTarget == local.executionTarget
    ensures f.lastOutcome != PlacementBlocked && f.phase != Running
    ensures if confirmed then f.process.None? else ExecutorBlocked(f) && f.process == local.process
  {}

  lemma HandlerSaved(s: System, t: System, confirmed: bool)
    requires Contained(s) && s.task.Stopping? && (confirmed ==> Quiescent(s))
    requires t.attempts == s.attempts && t.ssh == s.ssh && t.pass == s.pass && t.memory == None
    requires t.task == Ending && t.up == s.up && t.late == if s.task.unsettled then s.late + {t.rec} else s.late
    requires t.rec.lastAttemptId == s.task.local.lastAttemptId && t.rec.executionTarget == s.task.local.executionTarget
    requires t.rec.lastOutcome != PlacementBlocked && t.rec.phase != Running
    requires if confirmed then t.rec.process.None? else ExecutorBlocked(t.rec) && t.rec.process == s.task.local.process
    ensures Contained(t)
  {
    AbandonedIsKnown(s, t, t.rec);
    TaskStepContained(s, t);
  }

  lemma HandlerDiesContained(s: System, t: System)
    requires Contained(s) && FinishEnabled(s, HandlerDies) && t == FinishStep(s, HandlerDies)
    ensures Contained(t)
  {
    AbandonedIsKnown(s, t, s.task.local);
    if s.memory.Some? {
      QuietEndContained(s, t);
    } else {
      TaskStepContained(s, t);
    }
  }

  /** A request left behind keeps the record of its attempt. */
  lemma AbandonedIsKnown(s: System, t: System, r: IssueState)
    requires Contained(s) && s.task.Stopping? && t.attempts == s.attempts && !HoldsRecord(t.task)
    requires t.late == if s.task.unsettled then s.late + {r} else s.late
    requires r.lastAttemptId == s.task.local.lastAttemptId
    requires s.task.unsettled ==> Earlier(r, s.attempts)
    ensures LateKnown(t)
  {}

  lemma LastSaveContained(s: System, t: System, answer: TrackerAnswer, times: Times)
    requires Contained(s) && FinishEnabled(s, Finish(answer, times)) && t == FinishStep(s, Finish(answer, times))
    ensures Contained(t)
  {
    SameAttemptsContained(s, t);
  }

  lemma InterruptContained(s: System, t: System, fault: bool, unsettled: bool)
    requires Contained(s) && FinishEnabled(s, Interrupt(fault, unsettled))
    requires t == FinishStep(s, Interrupt(fault, unsettled))
    ensures Contained(t)
  {
    InterruptedTask(s, t, fault, unsettled);
    if t.task.Stopping? {
      HandlerStarts(s, t);
    } else {
      QuietEndContained(s, t);
    }
  }

  /** The handler starts from the record in the task's memory; before the `try` there is none. */
  lemma InterruptedTask(s: System, t: System, fault: bool, unsettled: bool)
    requires RecordsKnown(s) && TaskFits(s) && FinishEnabled(s, Interrupt(fault, unsettled))
    requires t == FinishStep(s, Interrupt(fault, unsettled))
    ensures if s.task.Dispatched? || s.task.Starting? then Quiescent(s) && t == s.(task := NoTask, memory := None)
            else t == s.(task := t.task) && t.task.Stopping? && HoldsRecord(s.task) && !s.task.Spawned?
                 && Owns(s, t.task.id) && SameEvidence(t.task.local, Own(s))
    ensures t.task.Stopping? && t.task.unsettled ==>
              s.task.Executing? && s.task.id == t.task.id && OnSsh(s, t.task.id) && t.task.local == Own(s)
  {}

  lemma HandlerStarts(s: System, t: System)
    requires Contained(s) && t == s.(task := t.task) && t.task.Stopping? && HoldsRecord(s.task)
    requires Owns(s, t.task.id) && SameEvidence(t.task.local, Own(s)) && !s.task.Spawned?
    requires t.task.unsettled ==>
               s.task.Executing? && s.task.id == t.task.id && OnSsh(s, t.task.id) && t.task.local == Own(s)
    ensures Contained(t)
  {
    assert Own(t) == Own(s);
    SameAttemptsContained(s, t);
  }

  /** The process of the attempt becomes known. */
  lemma StartedContained(s: System, t: System, e: FinishEvent)
    requires Contained(s) && FinishEnabled(s, e) && t == FinishStep(s, e)
    requires e.RecordSpawn? || e.MissSpawn? || e.RemoteStarted? || e.StartedWhileStopping?
    ensures Contained(t)
  {
    if e.StartedWhileStopping? {
      StartedWhileStoppingContained(s, t, e);
    } else {
      SameAttemptsContained(s, t);
    }
  }

  lemma StartedWhileStoppingContained(s: System, t: System, e: FinishEvent)
    requires Contained(s) && e.StartedWhileStopping? && FinishEnabled(s, e) && t == FinishStep(s, e)
    ensures Contained(t)
  {
    SameAttemptsContained(s, t);
  }

  lemma ReturnContained(s: System, t: System, e: FinishEvent)
    requires Contained(s) && FinishEnabled(s, e) && t == FinishStep(s, e)
    requires e.RemoteReturn? || e.LocalReturn? || e.SettleUnsafe? || e.Finish?
    ensures Contained(t)
  {
    match e
    case RemoteReturn(exit) => RemoteReturnContained(s, t, exit);
    case LocalReturn(_, _, _) => LocalReturnContained(s, t, e);
    case SettleUnsafe => SettleContained(s, t);
    case Finish(answer, times) => LastSaveContained(s, t, answer, times);
  }

  lemma SettleContained(s: System, t: System)
    requires Contained(s) && FinishEnabled(s, SettleUnsafe) && t == FinishStep(s, SettleUnsafe)
    ensures Contained(t)
  {
    SameAttemptsContained(s, t);
  }

  lemma HandlerContained(s: System, t: System, e: FinishEvent)
    requires Contained(s) && FinishEnabled(s, e) && t == FinishStep(s, e)
    requires e.Interrupt? || e.Stopped? || e.HandlerDies?
    ensures Contained(t)
  {
    match e
    case Interrupt(fault, unsettled) => InterruptContained(s, t, fault, unsettled);
    case Stopped(confirmed, times) => StoppedContained(s, t, confirmed, times);
    case HandlerDies => HandlerDiesContained(s, t);
  }

  lemma FinishContained(s: System, t: System, e: FinishEvent)
    requires Contained(s) && FinishEnabled(s, e) && t == FinishStep(s, e)
    ensures Contained(t)
  {
    if e.RemoteReturn? || e.LocalReturn? || e.SettleUnsafe? || e.Finish? {
      ReturnContained(s, t, e);
    } else if e.Interrupt? || e.Stopped? || e.HandlerDies? {
      HandlerContained(s, t, e);
    } else if e.TaskDone? {
      SameAttemptsContained(s, t);
    } else {
      StartedContained(s, t, e);
    }
  }
}
