/** Every hazard of the control plane is met, with a live executor, in some run of a new issue. */
module HazardWitnesses {
  import opened Wrappers
  import opened IssueRecords
  import opened ControlPlane
  import opened Hazards
  import T = ControlTheorems
  import R = RemoteAttempt
  import RT = RemoteTheorems

  lemma {:induction false} Prepares(o: System, s: System, id: string) returns (t: System)
    requires ReachesOrderly(o, s) && id in s.attempts && s.attempts[id].side.RemoteSide?
    requires RT.Preparable(s.attempts[id].side.protocol)
    ensures ReachesOrderly(o, t) && t == WithSide(s, id, RemoteSide(RT.PREPARED))
    decreases RT.StepsLeft(s.attempts[id].side.protocol.prepare)
  {
    var p := s.attempts[id].side.protocol;
    if p == RT.PREPARED {
      t := s;
      assert s.attempts[id := s.attempts[id]] == s.attempts;
    } else {
      var q := R.Next(p, R.PrepareStep(true));
      RT.PrepareStepAdvances(p, q);
      var u := WithSide(s, id, RemoteSide(q));
      ReachesHost(o, s, u, id, R.PrepareStep(true));
      t := Prepares(o, u, id);
      assert WithSide(u, id, t.attempts[id].side) == WithSide(s, id, t.attempts[id].side);
    }
  }

  lemma PreparesRemotely(o: System, s: System, target: Target, id: string) returns (t: System)
    requires ReachesOrderly(o, s) && Idle(s) && target in s.ssh && target != "" && id !in s.attempts && id != ""
    ensures ReachesOrderly(o, t) && t.task == Preparing(id) && t.up && t.memory.None? && t.rec.phase == Running
    ensures t.ssh == s.ssh
    ensures t.rec.lastOutcome == s.rec.lastOutcome && t.rec.lastAttemptId == Some(id)
    ensures t.rec.process.None? && t.rec.executionTarget == Some(target)
    ensures id in t.attempts && t.attempts[id] == Attempt(target, RemoteSide(RT.PREPARED))
    ensures t.attempts.Keys == s.attempts.Keys + {id}
  {
    var u := StartsAttempt(o, s, target, id);
    var v := u.(task := Preparing(id));
    ReachesStart(o, u, v, EnterTry);
    var w := WithSide(v, id, RemoteSide(R.Next(R.FRESH, R.SendPrepare)));
    ReachesStart(o, v, w, SendPrepare);
    t := Prepares(o, w, id);
  }

  /** The agent of a remote attempt runs; its helper still holds the lease. */
  predicate RunsRemotely(s: System, id: string) {
    && s.up && s.task.Executing? && s.task.id == id && s.memory.None?
    && s.rec.phase == Running && s.rec.lastOutcome != PlacementBlocked && s.rec.lastAttemptId == Some(id)
    && OnSsh(s, id) && s.attempts[id].target in s.ssh && s.attempts[id].side.protocol.agent == R.Live
    && s.attempts[id].side.protocol.runner == R.RunSpawned && s.attempts[id].side.protocol.lease == Some(R.RunHelper)
    && s.rec.process.None? && s.rec.executionTarget == Some(s.attempts[id].target)
    && s.attempts[id].target != "" && id != ""
  }

  lemma LaunchesRemotely(o: System, s: System, target: Target, id: string) returns (t: System)
    requires ReachesOrderly(o, s) && Idle(s) && target in s.ssh && target != "" && id !in s.attempts && id != ""
    requires s.rec.lastOutcome != PlacementBlocked
    ensures ReachesOrderly(o, t) && RunsRemotely(t, id) && t.ssh == s.ssh && t.attempts.Keys == s.attempts.Keys + {id}
    ensures t.attempts[id].target == target
  {
    var u := PreparesRemotely(o, s, target, id);
    var v := SendsRun(o, u, target, id);
    t := WakesUp(o, v, id);
    RunsAfterWaking(v, t, target, id);
  }

  lemma RunsAfterWaking(s: System, t: System, target: Target, id: string)
    requires id in s.attempts && s.attempts[id] == Attempt(target, RemoteSide(RT.PREPARED.(runner := R.RunInFlight)))
    requires s.up && s.task.Executing? && s.task.id == id && s.memory.None? && target in s.ssh
    requires s.rec.phase == Running && s.rec.lastOutcome != PlacementBlocked && s.rec.lastAttemptId == Some(id)
    requires s.rec.process.None? && s.rec.executionTarget == Some(target) && target != "" && id != ""
    requires LiveAttempt(t, id) && t == WithSide(s, id, t.attempts[id].side)
    requires t.attempts[id].side.RemoteSide? && t.attempts[id].side.protocol.runner == R.RunSpawned
    requires t.attempts[id].side.protocol.lease == Some(R.RunHelper)
    ensures RunsRemotely(t, id) && t.ssh == s.ssh && t.attempts.Keys == s.attempts.Keys
    ensures t.attempts[id].target == target
  {}

  lemma SendsRun(o: System, s: System, target: Target, id: string) returns (t: System)
    requires ReachesOrderly(o, s) && s.task == Preparing(id) && s.memory.None?
    requires id in s.attempts && s.attempts[id] == Attempt(target, RemoteSide(RT.PREPARED))
    ensures ReachesOrderly(o, t) && t.task.Executing? && t.task.id == id && t.up == s.up && t.memory.None?
    ensures t.ssh == s.ssh
    ensures t.rec == s.rec.(workspacePath := t.rec.workspacePath)
    ensures id in t.attempts && t.attempts[id] == Attempt(target, RemoteSide(RT.PREPARED.(runner := R.RunInFlight)))
    ensures t.attempts.Keys == s.attempts.Keys
  {
    var mode := ContinuationMode(s.rec, false);
    var u := s.(rec := s.rec.(workspacePath := Some("")), task := Launching(id, mode));
    ReachesStart(o, s, u, WorkspaceReady("", false));
    var p := RT.PREPARED.(runner := R.RunInFlight);
    t := WithSide(u, id, RemoteSide(p)).(task := Executing(id, mode));
    ReachesStart(o, u, t, SendRun);
  }

  /** The transport fails, the reap is not confirmed, and the task ends. */
  lemma LosesContact(o: System, s: System, id: string) returns (t: System)
    requires ReachesOrderly(o, s) && RunsRemotely(s, id)
    ensures ReachesOrderly(o, t) && t.up && t.task.NoTask? && t.memory.None? && ExecutorBlocked(t.rec)
    ensures t.pass == s.pass
    ensures t.attempts == s.attempts && t.rec.lastAttemptId == Some(id)
  {
    var local := ReportedUnsafe(s.rec, RunResult(TransportExit(false), s.rec.session), s.rec.totalAttempts + 1);
    var u := s.(task := Settling(id, local));
    ReachesFinish(o, s, u, RemoteReturn(TransportExit(false)));
    t := Settles(o, u);
  }

  lemma Settles(o: System, s: System) returns (t: System)
    requires ReachesOrderly(o, s) && s.task.Settling? && s.memory.None?
    ensures ReachesOrderly(o, t) && t == s.(rec := s.task.local, task := NoTask)
  {
    var u := s.(rec := s.task.local, task := Ending);
    ReachesFinish(o, s, u, SettleUnsafe);
    t := u.(task := NoTask);
    ReachesFinish(o, u, t, TaskDone);
  }

  /** The exception handler of the task dies at its reap; the record stays RUNNING. */
  lemma LosesTask(o: System, s: System, id: string, fault: bool) returns (t: System)
    requires ReachesOrderly(o, s) && s.up && s.task.Executing? && s.task.id == id && s.memory.None?
    ensures ReachesOrderly(o, t) && t == s.(task := NoTask)
  {
    var u := s.(task := Stopping(id, s.rec, s.rec.totalAttempts + 1, fault, false));
    ReachesFinish(o, s, u, Interrupt(fault, false));
    t := u.(task := NoTask);
    ReachesFinish(o, u, t, HandlerDies);
  }

  /** The `run` request is left behind, the handler's own reap is confirmed, and the task
      ends with a retry scheduled. */
  lemma LeavesRequest(o: System, s: System, id: string) returns (t: System, held: IssueState)
    requires ReachesOrderly(o, s) && RunsRemotely(s, id)
    ensures ReachesOrderly(o, t) && Idle(t) && t.ssh == s.ssh && t.attempts.Keys == s.attempts.Keys
    ensures held in t.late && held.process.None? && held.lastAttemptId == Some(id)
    ensures OnSsh(t, id) && t.attempts[id].side.protocol.agent != R.NotSpawned
  {
    var u := s.(task := Stopping(id, s.rec, s.rec.totalAttempts + 1, true, true));
    ReachesFinish(o, s, u, Interrupt(true, true));
    t := ConfirmsAndRetries(o, u, id);
    held := t.rec;
  }

  lemma ConfirmsAndRetries(o: System, s: System, id: string) returns (t: System)
    requires ReachesOrderly(o, s) && s.up && s.task.Stopping? && s.task.id == id && s.task.fault && s.task.unsettled
    requires s.task.local.lastAttemptId == Some(id) && OnSsh(s, id) && s.attempts[id].target in s.ssh
    requires s.attempts[id].side.protocol.agent != R.NotSpawned
    ensures ReachesOrderly(o, t) && Idle(t) && t.ssh == s.ssh && t.attempts.Keys == s.attempts.Keys
    ensures t.rec in t.late && t.rec.process.None? && t.rec.lastAttemptId == Some(id)
    ensures OnSsh(t, id) && t.attempts[id].side.protocol.agent != R.NotSpawned
  {
    var u := AlwaysConfirms(o, s, id);
    t := RetriesLater(o, u, id);
  }

  lemma RetriesLater(o: System, s: System, id: string) returns (t: System)
    requires ReachesOrderly(o, s) && s.up && s.task.Stopping? && s.task.id == id && s.task.fault && s.task.unsettled
    requires s.task.local.lastAttemptId == Some(id)
    requires OnSsh(s, id) && s.attempts[id].target in s.ssh && R.Confirmed(s.attempts[id].side.protocol)
    ensures ReachesOrderly(o, t) && Idle(t) && t.ssh == s.ssh && t.attempts == s.attempts
    ensures t.rec in t.late && t.rec.process.None? && t.rec.lastAttemptId == Some(id)
  {
    var e := Stopped(true, Times(0.0, 0.0, 0.0));
    var w := FinishStep(s, e);
    ReachesFinish(o, s, w, e);
    t := w.(task := NoTask);
    ReachesFinish(o, w, t, TaskDone);
  }

  ghost predicate MetAlive(s: System, e: Event) {
    Hazard(s, e) && exists id :: LiveAttempt(s, id)
  }

  /** A new issue whose default target is `target`, with or without ssh. */
  function NewIssue(target: Target, remote: bool): System {
    Init(if remote then {target} else {}, target)
  }

  lemma HelperCrashIsMet(target: Target, id: string) returns (s: System)
    requires target != "" && id != ""
    ensures ReachesOrderly(NewIssue(target, true), s) && MetAlive(s, OnTarget(HostStep(id, R.RunCrash)))
  {
    var o := NewIssue(target, true);
    ReachesSelf(o);
    s := LaunchesRemotely(o, o, target, id);
    assert LiveAttempt(s, id);
  }

  lemma RefusalIsMet(target: Target, id: string) returns (s: System)
    requires target != "" && id != ""
    ensures ReachesOrderly(NewIssue(target, true), s) && MetAlive(s, InLoop(RefusePlacement))
  {
    var o := NewIssue(target, true);
    ReachesSelf(o);
    var t := LaunchesRemotely(o, o, target, id);
    s := LosesContact(o, t, id);
    assert LiveAttempt(s, id);
    assert LoopLapse(s, RefusePlacement);
  }

  /** The record is loaded while the agent runs, and blocked before it is released. */
  lemma StaleReleaseIsMet(target: Target, id: string) returns (s: System)
    requires target != "" && id != ""
    ensures ReachesOrderly(NewIssue(target, true), s) && MetAlive(s, InLoop(ReleaseWaiting)) && ExecutorBlocked(s.rec)
  {
    var o := NewIssue(target, true);
    ReachesSelf(o);
    var t := LaunchesRemotely(o, o, target, id);
    var u := t.(pass := WaitingPass(t.rec));
    ReachesLoop(o, t, u, LoadWaiting);
    s := LosesContact(o, u, id);
    assert LiveAttempt(s, id);
    assert LoopLapse(s, ReleaseWaiting);
  }

  /** The task of a RUNNING record dies in its handler, and the issue turns inactive: the
      release is up to date and still loses the executor. */
  lemma TasklessReleaseIsMet(target: Target, id: string) returns (s: System)
    requires target != "" && id != ""
    ensures ReachesOrderly(NewIssue(target, true), s) && MetAlive(s, InLoop(ReleaseWaiting))
    ensures s.pass == WaitingPass(s.rec)
  {
    var o := NewIssue(target, true);
    ReachesSelf(o);
    var t := LaunchesRemotely(o, o, target, id);
    var u := LosesTask(o, t, id, true);
    s := u.(pass := WaitingPass(u.rec));
    ReachesLoop(o, u, s, LoadWaiting);
    assert LiveAttempt(s, id);
    assert LoopLapse(s, ReleaseWaiting);
  }

  /** The record of a local attempt is loaded before its process is known, and written back
      after the task died: the evidence of the live process is gone. */
  lemma StaleRefreshIsMet(target: Target, id: string) returns (s: System)
    requires target != "" && id != ""
    ensures ReachesOrderly(NewIssue(target, false), s) && MetAlive(s, InLoop(RefreshWaiting))
  {
    var o := NewIssue(target, false);
    ReachesSelf(o);
    var u := StartsLoaded(o, target, id);
    var v := RunsLocally(o, u, target, id);
    s := LosesTask(o, v, id, false);
    assert LiveAttempt(s, id);
    assert LoopLapse(s, RefreshWaiting) && !StillTracks(s, s.pass.copy);
  }

  lemma StartsLoaded(o: System, target: Target, id: string) returns (t: System)
    requires target != "" && id != "" && o == NewIssue(target, false) && ReachesOrderly(o, o)
    ensures ReachesOrderly(o, t) && t.up && t.task == Starting(id) && t.memory.None? && t.ssh == {}
    ensures id in t.attempts && t.attempts[id] == Attempt(target, LocalSide(R.NotSpawned))
    ensures t.pass == WaitingPass(t.rec) && t.rec.phase == Running && t.rec.process.None?
    ensures t.rec.executionTarget == Some(target)
  {
    var s := StartsAttempt(o, o, target, id);
    t := s.(pass := WaitingPass(s.rec));
    ReachesLoop(o, s, t, LoadWaiting);
  }

  /** A local agent is started and its identity saved. */
  lemma RunsLocally(o: System, s: System, target: Target, id: string) returns (t: System)
    requires ReachesOrderly(o, s) && s.up && s.task == Starting(id)
    requires id in s.attempts && s.attempts[id] == Attempt(target, LocalSide(R.NotSpawned))
    ensures ReachesOrderly(o, t) && t.up && t.task.Executing? && t.task.id == id && t.memory.None?
    ensures t.pass == s.pass && t.ssh == s.ssh && t.late == s.late
    ensures t.attempts == s.attempts[id := Attempt(target, LocalSide(R.Live))]
    ensures t.rec == Own(s).(workspacePath := t.rec.workspacePath, process := t.rec.process) && t.rec.process.Some?
    ensures LiveAttempt(t, id)
  {
    var u := PreparesLocally(o, s, id);
    var v := SpawnsLocally(o, u, id);
    t := FinishStep(v, RecordSpawn);
    ReachesFinish(o, v, t, RecordSpawn);
  }

  /** A request left behind by an attempt that was stopped hears of its process only when the
      next attempt runs, and saves its own record over that attempt's. */
  lemma LateStartIsMet(target: Target, other: Target, id: string, next: string) returns (s: System, held: IssueState)
    requires target != "" && other != "" && other != target && id != "" && next != "" && next != id
    ensures ReachesOrderly(NewIssue(target, true), s) && MetAlive(s, InLoop(LateStart(held, 0, 0.0)))
  {
    var o := NewIssue(target, true);
    ReachesSelf(o);
    var t := LaunchesRemotely(o, o, target, id);
    var u;
    u, held := LeavesRequest(o, t, id);
    s := RunsNext(o, u, other, next);
    OverwriteIsHazard(s, held, id, next);
  }

  lemma OverwriteIsHazard(s: System, held: IssueState, id: string, next: string)
    requires s.up && s.task.Executing? && s.memory.None? && s.rec.lastAttemptId == Some(next) && LiveAttempt(s, next)
    requires held in s.late && held.process.None? && held.lastAttemptId == Some(id) && id != next
    requires OnSsh(s, id) && s.attempts[id].side.protocol.agent != R.NotSpawned
    ensures MetAlive(s, InLoop(LateStart(held, 0, 0.0)))
  {
    assert !Quiet(s.attempts[next].side);
    assert LoopLapse(s, LateStart(held, 0, 0.0));
  }

  lemma RunsNext(o: System, s: System, target: Target, id: string) returns (t: System)
    requires ReachesOrderly(o, s) && Idle(s) && Spare(s, target, id)
    ensures ReachesOrderly(o, t) && t.up && t.task.Executing? && t.memory.None? && t.rec.lastAttemptId == Some(id)
    ensures t.late == s.late && t.attempts == s.attempts[id := Attempt(target, LocalSide(R.Live))]
  {
    var u := StartsAttempt(o, s, target, id);
    t := RunsLocally(o, u, target, id);
    assert s.attempts[id := u.attempts[id]][id := t.attempts[id]] == s.attempts[id := t.attempts[id]];
  }

  lemma SpawnCrashIsMet(target: Target, id: string) returns (s: System)
    requires target != "" && id != ""
    ensures ReachesOrderly(NewIssue(target, false), s) && MetAlive(s, InLoop(Crash))
  {
    var o := NewIssue(target, false);
    ReachesSelf(o);
    s := LaunchesLocally(o, o, target, id);
    assert LiveAttempt(s, id);
    assert LoopLapse(s, Crash);
  }

  // ----- a copy of the blocked pass, saved over a running attempt

  /** The `run` request is left behind, the handler's own reap is not confirmed, and the
      record is blocked. */
  lemma LeavesBlocked(o: System, s: System, id: string) returns (t: System)
    requires ReachesOrderly(o, s) && RunsRemotely(s, id)
    ensures ReachesOrderly(o, t) && LeftBlocked(t, id) && t.ssh == s.ssh && t.attempts == s.attempts
  {
    var u := s.(task := Stopping(id, s.rec, s.rec.totalAttempts + 1, true, true));
    ReachesFinish(o, s, u, Interrupt(true, true));
    t := BlocksAfterFault(o, u, id);
  }

  lemma BlocksAfterFault(o: System, s: System, id: string) returns (t: System)
    requires ReachesOrderly(o, s) && s.up && s.task.Stopping? && s.task.id == id && s.task.fault && s.task.unsettled
    ensures ReachesOrderly(o, t) && t.up && t.task.NoTask? && t.memory.None? && t.ssh == s.ssh
    ensures t.attempts == s.attempts
    ensures ExecutorBlocked(t.rec) && t.rec in t.late && t.rec.process == s.task.local.process
    ensures t.rec.lastAttemptId == s.task.local.lastAttemptId && t.rec.executionTarget == s.task.local.executionTarget
  {
    var e := Stopped(false, Times(0.0, 0.0, 0.0));
    var v := FinishStep(s, e);
    ReachesFinish(o, s, v, e);
    t := v.(task := NoTask);
    ReachesFinish(o, v, t, TaskDone);
  }

  /** The record of attempt `id` is blocked, and a request left behind has its process to report. */
  predicate LeftBlocked(s: System, id: string) {
    && s.up && s.task.NoTask? && s.memory.None? && ExecutorBlocked(s.rec) && s.rec in s.late
    && s.rec.process.None? && s.rec.lastAttemptId == Some(id) && id != ""
    && OnSsh(s, id) && s.attempts[id].target in s.ssh && s.attempts[id].target != ""
    && s.rec.executionTarget == Some(s.attempts[id].target)
    && s.attempts[id].side.protocol.agent != R.NotSpawned
  }

  lemma BlocksRemotely(o: System, target: Target, id: string) returns (t: System)
    requires o == NewIssue(target, true) && target != "" && id != ""
    ensures ReachesOrderly(o, t) && LeftBlocked(t, id) && t.ssh == {target} && t.attempts.Keys == {id}
  {
    ReachesSelf(o);
    var s := LaunchesRemotely(o, o, target, id);
    t := LeavesBlocked(o, s, id);
  }

  /** A request left behind records the process of a blocked record while a reap of the record,
      loaded before, is under way: the reap's save forgets it. */
  lemma EvidenceIsDropped(target: Target, id: string) returns (s: System)
    requires target != "" && id != ""
    ensures ReachesOrderly(NewIssue(target, true), s) && ExecutorBlocked(s.rec) && s.rec.process.Some?
    ensures var e := InLoop(ReapBlocked(Unconfirmed));
            && !Lapse(s, e) && !T.ReapReturnsTrue(s, e) && T.DropsProcess(s, e) && Next(s, e).rec.process.None?
  {
    var o := NewIssue(target, true);
    var t := BlocksRemotely(o, target, id);
    var u := t.(pass := BlockedPass(t.rec, false));
    ReachesLoop(o, t, u, LoadBlocked);
    s := LoopStep(u, LateStart(t.rec, 0, 0.0));
    ReachesLoop(o, u, s, LateStart(t.rec, 0, 0.0));
  }

  /** The block is resolved by a confirmed reap, and the next attempt begins on a local target. */
  lemma Unblocks(o: System, s: System, id: string) returns (t: System)
    requires ReachesOrderly(o, s) && LeftBlocked(s, id)
    ensures ReachesOrderly(o, t) && Idle(t) && t.ssh == s.ssh && s.rec in t.late && ReapableOnSsh(t, id)
    ensures t.attempts.Keys == s.attempts.Keys && t.attempts[id].target == s.attempts[id].target
  {
    var u := s.(pass := BlockedPass(s.rec, false));
    ReachesLoop(o, s, u, LoadBlocked);
    var v := AlwaysConfirms(o, u, id);
    var w := LoopStep(v, ReapBlocked(Confirmed));
    ReachesLoop(o, v, w, ReapBlocked(Confirmed));
    t := LoopStep(w, Unblock(Found(Active)));
    ReachesLoop(o, w, t, Unblock(Found(Active)));
  }

  /** A reap of attempt `id` may confirm. */
  predicate ReapableOnSsh(s: System, id: string) {
    && OnSsh(s, id) && s.attempts[id].target in s.ssh && R.Confirmed(s.attempts[id].side.protocol)
    && s.attempts[id].side.protocol.agent != R.NotSpawned
  }

  lemma BeginsNext(o: System, target: Target, other: Target, id: string, next: string)
    returns (t: System, held: IssueState)
    requires o == NewIssue(target, true) && target != "" && other != "" && other != target
    requires id != "" && next != "" && next != id
    ensures ReachesOrderly(o, t) && Begun(t, target, other, id, next) && t.memory.None?
    ensures held in t.late && HeldBlocked(held, id, target) && held.process.None?
  {
    var s := BlocksRemotely(o, target, id);
    held := s.rec;
    var u := Unblocks(o, s, id);
    t := StartsAttempt(o, u, other, next);
  }

  /** Attempt `next` begins on a local target; `id` is over, and a reap of it may confirm. */
  predicate Begun(s: System, target: Target, other: Target, id: string, next: string) {
    && s.up && s.task == Starting(next) && Own(s).lastAttemptId == Some(next) && next != id
    && next in s.attempts && s.attempts[next] == Attempt(other, LocalSide(R.NotSpawned))
    && ReapableOnSsh(s, id) && s.attempts[id].target == target
  }

  predicate HeldBlocked(r: IssueState, id: string, target: Target) {
    ExecutorBlocked(r) && r.lastAttemptId == Some(id) && r.executionTarget == Some(target) && id != "" && target != ""
  }

  /** The blocked pass has a copy of the record of `id`. */
  predicate HasCopy(s: System, target: Target, id: string) {
    s.pass.BlockedPass? && HeldBlocked(s.pass.copy, id, target)
  }

  /** The late record is saved, and loaded by the blocked pass, before the next attempt saves
      its own again: a lapse, and no hazard, for nothing runs and nothing is about to. */
  lemma LoadsLateRecord(o: System, s: System, held: IssueState, target: Target, other: Target, id: string, next: string)
    returns (t: System)
    requires Reaches(o, s) && Quiescent(s) && Begun(s, target, other, id, next)
    requires held in s.late && HeldBlocked(held, id, target) && held.process.None?
    ensures Reaches(o, t) && Quiescent(t) && Begun(t, target, other, id, next) && t.memory.Some?
    ensures HasCopy(t, target, id) && !t.pass.reaped
  {
    var u := LoopStep(s, LateStart(held, 0, 0.0));
    SafeNext(o, s, u, InLoop(LateStart(held, 0, 0.0)));
    assert Own(u) == Own(s) && Begun(u, target, other, id, next);
    t := u.(pass := BlockedPass(u.rec, false));
    SafeNext(o, u, t, InLoop(LoadBlocked));
  }

  /** A new issue gets there. */
  lemma MeetsCopy(o: System, target: Target, other: Target, id: string, next: string) returns (t: System)
    requires o == NewIssue(target, true) && target != "" && other != "" && other != target
    requires id != "" && next != "" && next != id
    ensures Reaches(o, t) && Quiescent(t) && Begun(t, target, other, id, next) && t.memory.Some?
    ensures HasCopy(t, target, id) && !t.pass.reaped
  {
    var s, held := BeginsNext(o, target, other, id, next);
    OrderlyReaches(o, s);
    NothingRuns(o, s, next);
    t := LoadsLateRecord(o, s, held, target, other, id, next);
  }

  lemma NothingRuns(o: System, s: System, next: string)
    requires Reaches(o, s) && o == Init(o.ssh, o.home) && s.task == Starting(next)
    ensures Quiescent(s)
  {
    T.ReachableContained(o.ssh, o.home, s);
  }

  /** The next attempt saves its record and runs, while the pass waits. */
  lemma RunsOverCopy(o: System, s: System, target: Target, other: Target, id: string, next: string)
    returns (t: System)
    requires Reaches(o, s) && Begun(s, target, other, id, next) && HasCopy(s, target, id)
    ensures Reaches(o, t) && t.pass == s.pass
    ensures t.pass.reaped ==> MetAlive(t, InLoop(Unblock(Found(Active))))
    ensures !t.pass.reaped ==> MetAlive(t, InLoop(ReapBlocked(Confirmed)))
  {
    ReachesSelf(s);
    t := RunsLocally(s, s, other, next);
    SafeThenOrderly(o, s, t);
    CopyIsHazard(t, id, next, target);
  }

  lemma CopyIsHazard(s: System, id: string, next: string, target: Target)
    requires s.up && s.task.Executing? && s.memory.None? && s.rec.lastAttemptId == Some(next) && LiveAttempt(s, next)
    requires HasCopy(s, target, id) && id != next && ReapableOnSsh(s, id) && s.attempts[id].target == target
    ensures s.pass.reaped ==> MetAlive(s, InLoop(Unblock(Found(Active))))
    ensures !s.pass.reaped ==> MetAlive(s, InLoop(ReapBlocked(Confirmed)))
  {
    assert !Quiet(s.attempts[next].side);
    assert Outdated(s) && !StillTracks(s, s.pass.copy);
  }

  /** The blocked pass awaits the reap of an attempt that is over, while the next one saves its
      record and runs: the save of the copy loses it. */
  lemma BlockedCopyIsMet(target: Target, other: Target, id: string, next: string) returns (s: System)
    requires target != "" && other != "" && other != target && id != "" && next != "" && next != id
    ensures Reaches(NewIssue(target, true), s) && MetAlive(s, InLoop(ReapBlocked(Confirmed)))
  {
    var o := NewIssue(target, true);
    var t := MeetsCopy(o, target, other, id, next);
    s := RunsOverCopy(o, t, target, other, id, next);
  }

  lemma ReapsLateRecord(o: System, s: System, target: Target, other: Target, id: string, next: string)
    returns (t: System)
    requires Reaches(o, s) && Quiescent(s) && Begun(s, target, other, id, next) && s.memory.Some?
    requires HasCopy(s, target, id) && !s.pass.reaped
    ensures Reaches(o, t) && Begun(t, target, other, id, next) && HasCopy(t, target, id) && t.pass.reaped
  {
    t := LoopStep(s, ReapBlocked(Confirmed));
    SafeNext(o, s, t, InLoop(ReapBlocked(Confirmed)));
  }

  /** The same, when the next attempt gets to run only between the reap and the release. */
  lemma StaleUnblockIsMet(target: Target, other: Target, id: string, next: string) returns (s: System)
    requires target != "" && other != "" && other != target && id != "" && next != "" && next != id
    ensures Reaches(NewIssue(target, true), s) && MetAlive(s, InLoop(Unblock(Found(Active))))
  {
    var o := NewIssue(target, true);
    var t := MeetsCopy(o, target, other, id, next);
    var u := ReapsLateRecord(o, t, target, other, id, next);
    s := RunsOverCopy(o, u, target, other, id, next);
  }

  // ----- safe runs

  lemma SafeNext(s: System, t: System, u: System, e: Event)
    requires Reaches(s, t) && !Hazard(t, e) && u == Next(t, e)
    ensures Reaches(s, u)
  {
    var es :| SafeRun(s, es) && Exec(s, es) == t;
    var fs := es + [e];
    assert fs[..|fs| - 1] == es;
    assert SafeRun(s, fs) && Exec(s, fs) == u;
  }

  lemma {:induction false} SafeAfterSafe(s: System, t: System, es: seq<Event>)
    requires Reaches(s, t) && SafeRun(t, es)
    ensures Reaches(s, Exec(t, es))
  {
    if es != [] {
      SafeAfterSafe(s, t, es[..|es| - 1]);
      SafeNext(s, Exec(t, es[..|es| - 1]), Exec(t, es), es[|es| - 1]);
    }
  }

  lemma SafeThenOrderly(s: System, t: System, u: System)
    requires Reaches(s, t) && ReachesOrderly(t, u)
    ensures Reaches(s, u)
  {
    var es :| OrderlyRun(t, es) && Exec(t, es) == u;
    T.OrderlyIsSafe(t, es);
    SafeAfterSafe(s, t, es);
  }
}
