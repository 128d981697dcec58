/**
 What holds in every run of one issue: containment and the stop proofs when no hazard is
 met, the record and its counters when no lapse is.
 */
module ControlTheorems {
  import opened Wrappers
  import opened IssueRecords
  import opened ControlPlane
  import opened Containment
  import opened ContainmentSteps
  import opened ControlInvariant
  import opened History
  import RT = RemoteTheorems

  // ----- at most one executor

  lemma AtMostOneLive(s: System)
    requires Contained(s)
    ensures forall id :: id in s.attempts && SideLive(s.attempts[id].side) ==> Own(s).lastAttemptId == Some(id)
    ensures forall id :: id in s.attempts && SideLive(s.attempts[id].side) ==> s.memory.None? || s.task.Spawned?
  {
    forall id | id in s.attempts && SideLive(s.attempts[id].side)
      ensures Own(s).lastAttemptId == Some(id) && (s.memory.None? || s.task.Spawned?)
    {
      assert !Quiet(s.attempts[id].side);
    }
  }

  lemma ReachableContained(ssh: set<Target>, home: Target, s: System)
    requires Reaches(Init(ssh, home), s)
    ensures Contained(s)
  {
    var es :| SafeRun(Init(ssh, home), es) && Exec(Init(ssh, home), es) == s;
    InitContained(ssh, home);
    RunContained(Init(ssh, home), es);
  }

  /** At most one agent of the issue is alive. */
  ghost predicate SoleExecutor(s: System) {
    forall a, b | a in s.attempts && b in s.attempts && SideLive(s.attempts[a].side) && SideLive(s.attempts[b].side) ::
      a == b
  }

  /** A live agent of the issue is that of the attempt its record names, or was spawned by
      the task in this very stretch of code. */
  ghost predicate OnlyNamedLive(s: System) {
    forall a | a in s.attempts && SideLive(s.attempts[a].side) ::
      s.rec.lastAttemptId == Some(a) || (s.task.Spawned? && Own(s).lastAttemptId == Some(a))
  }

  /** In every safe run an issue has at most one live agent over all targets: the one
      started for the attempt its record names. */
  lemma AtMostOneExecutor(ssh: set<Target>, home: Target, s: System)
    requires Reaches(Init(ssh, home), s)
    ensures SoleExecutor(s) && OnlyNamedLive(s)
  {
    ReachableContained(ssh, home, s);
    AtMostOneLive(s);
  }

  // ----- stop proofs

  /** The attempt has no agent and its launch is over. */
  predicate Retired(s: System, id: string) {
    && id in s.attempts && Quiet(s.attempts[id].side)
    && !((s.task.Starting? || s.task.Preparing? || s.task.Launching?) && s.task.id == id)
  }

  lemma RetiredStaysOnTarget(s: System, t: System, e: TargetEvent, id: string)
    requires Contained(s) && Retired(s, id) && TargetEnabled(s, e) && t == TargetStep(s, e)
    ensures Retired(t, id)
  {
    if e.HostStep? && e.host == id {
      assert AttemptOk(s.attempts, s.ssh, id);
      RT.QuietPersists(s.attempts[id].side.protocol, e.e);
    }
  }

  lemma RetiredStaysInStart(s: System, t: System, e: StartEvent, id: string)
    requires TaskFits(s) && Retired(s, id) && StartEnabled(s, e) && t == StartStep(s, e)
    ensures Retired(t, id)
  {}

  lemma RetiredStaysInFinish(s: System, t: System, e: FinishEvent, id: string)
    requires Retired(s, id) && FinishEnabled(s, e) && t == FinishStep(s, e)
    ensures Retired(t, id)
  {
    assert t.attempts == s.attempts;
    assert !(t.task.Starting? || t.task.Preparing? || t.task.Launching?);
  }

  lemma RetiredStaysInLoop(s: System, t: System, e: LoopEvent, id: string)
    requires Retired(s, id) && LoopEnabled(s, e) && t == LoopStep(s, e)
    ensures Retired(t, id)
  {
    assert t.attempts == s.attempts && (t.task == s.task || t.task == NoTask);
  }

  lemma RetiredStays(s: System, t: System, e: Event, id: string)
    requires Contained(s) && Retired(s, id) && t == Next(s, e)
    ensures Retired(t, id)
  {
    if Enabled(s, e) {
      match e
      case OnTarget(te) => RetiredStaysOnTarget(s, t, te, id);
      case InStart(b) => RetiredStaysInStart(s, t, b, id);
      case InFinish(f) => RetiredStaysInFinish(s, t, f, id);
      case InLoop(l) => RetiredStaysInLoop(s, t, l, id);
    }
  }

  /** A retired attempt never has an agent again. */
  lemma {:induction false} RetiredForever(s: System, es: seq<Event>, id: string)
    requires Contained(s) && Retired(s, id) && SafeRun(s, es)
    ensures Retired(Exec(s, es), id) && !SideLive(Exec(s, es).attempts[id].side)
  {
    if es != [] {
      var before := es[..|es| - 1];
      RetiredForever(s, before, id);
      RunContained(s, before);
      RetiredStays(Exec(s, before), Exec(s, es), es[|es| - 1], id);
    }
  }

  lemma OtherwiseRetired(s: System, id: string)
    requires Contained(s) && !HoldsBack(Own(s)) && id in s.attempts
    ensures Retired(s, id)
  {
    assert Quiescent(s);
  }

  /** Attempt `id` was started and has no agent. */
  predicate Dead(s: System, id: string) {
    id in s.attempts && !SideLive(s.attempts[id].side)
  }

  /** Every exit carries its stop proof: whenever the record (the task's own, if a late
      message has overwritten the saved one) is neither RUNNING nor blocked for its executor,
      none of the attempts started so far has an agent, now or in any continuation. */
  lemma ExitsProveStop(s: System, u: System, id: string)
    requires Contained(s) && Reaches(s, u) && id in s.attempts && !HoldsBack(Own(s))
    ensures Dead(s, id) && Dead(u, id)
  {
    OtherwiseRetired(s, id);
    var es :| SafeRun(s, es) && Exec(s, es) == u;
    RetiredForever(s, es, id);
  }

  // ----- orderly runs

  lemma {:induction false} OrderlyIsSafe(s: System, es: seq<Event>)
    requires OrderlyRun(s, es)
    ensures SafeRun(s, es)
  {
    if es != [] {
      OrderlyIsSafe(s, es[..|es| - 1]);
    }
  }

  lemma {:induction false} RunKeepsInv(s: System, es: seq<Event>)
    requires Inv(s) && OrderlyRun(s, es)
    ensures Inv(Exec(s, es))
  {
    if es != [] {
      RunKeepsInv(s, es[..|es| - 1]);
      StepKeepsInv(Exec(s, es[..|es| - 1]), es[|es| - 1]);
    }
  }

  /** `s` is a state of some orderly run of a new issue. */
  lemma ReachableInv(ssh: set<Target>, home: Target, s: System)
    requires ReachesOrderly(Init(ssh, home), s)
    ensures Inv(s) && s.home == home && s.ssh == ssh
  {
    var es :| OrderlyRun(Init(ssh, home), es) && Exec(Init(ssh, home), es) == s;
    InitInv(ssh, home);
    RunKeepsInv(Init(ssh, home), es);
    HomeIsFixed(Init(ssh, home), es);
  }

  lemma {:induction false} HomeIsFixed(s: System, es: seq<Event>)
    ensures Exec(s, es).home == s.home && Exec(s, es).ssh == s.ssh
  {
    if es != [] {
      HomeIsFixed(s, es[..|es| - 1]);
      StepFixesHome(Exec(s, es[..|es| - 1]), es[|es| - 1]);
    }
  }

  lemma StepFixesHome(s: System, e: Event)
    ensures Next(s, e).home == s.home && Next(s, e).ssh == s.ssh
  {
    match e
    case OnTarget(_) =>
    case InStart(b) => if StartEnabled(s, b) { StartFixesHome(s, b); }
    case InFinish(f) => if FinishEnabled(s, f) { FinishFixesHome(s, f); }
    case InLoop(l) => if LoopEnabled(s, l) { LoopFixesHome(s, l); }
  }

  lemma StartFixesHome(s: System, b: StartEvent)
    requires StartEnabled(s, b)
    ensures StartStep(s, b).home == s.home && StartStep(s, b).ssh == s.ssh
  {}

  lemma FinishFixesHome(s: System, f: FinishEvent)
    requires FinishEnabled(s, f)
    ensures FinishStep(s, f).home == s.home && FinishStep(s, f).ssh == s.ssh
  {}

  lemma LoopFixesHome(s: System, l: LoopEvent)
    requires LoopEnabled(s, l)
    ensures LoopStep(s, l).home == s.home && LoopStep(s, l).ssh == s.ssh
  {}

  /** A reap of the record is sent for the last attempt, to the target it was launched on. */
  ghost predicate ReapReachesAttempt(s: System) {
    && ReapAttempt(s.rec).Some? && ReapAttempt(s.rec) == s.rec.lastAttemptId && ReapAttempt(s.rec).value in s.attempts
    && ReapTarget(s.rec, s.home) == s.attempts[ReapAttempt(s.rec).value].target
  }

  /** In every orderly run the record is well formed, and a reap of a RUNNING or
      executor-blocked record goes to the target where its attempt was launched. */
  lemma RecordsStayWellFormed(ssh: set<Target>, home: Target, s: System)
    requires ReachesOrderly(Init(ssh, home), s)
    ensures RecordOk(s.rec)
    ensures s.rec.phase == Running || ExecutorBlocked(s.rec) ==> ReapReachesAttempt(s)
  {
    ReachableInv(ssh, home, s);
  }

  /** The two streak counters of the record count the failures since the last clean
      turn, and the clean turns since the last failure or change of target; nothing
      else that happened to the issue shows in them. */
  lemma CountersRefineHistory(ssh: set<Target>, home: Target, s: System)
    requires ReachesOrderly(Init(ssh, home), s)
    ensures s.rec.failureCount == |FailurePositions(s.history)|
    ensures s.rec.continuationIndex == |CleanPositions(s.history)|
  {
    ReachableInv(ssh, home, s);
    FailuresCountPositions(s.history);
    CleansCountPositions(s.history);
  }

  /** An attempt in native-resume mode has a session of the very target it runs on. */
  lemma NativeResumeHasSession(ssh: set<Target>, home: Target, s: System)
    requires ReachesOrderly(Init(ssh, home), s)
    ensures (s.task.Launching? || s.task.Spawned? || s.task.Executing?) && s.task.mode == NativeResume ==>
              OwnSession(s, s.task.id)
  {
    ReachableInv(ssh, home, s);
  }

  /** The record holds a session that an agent on the attempt's own target produced. */
  predicate OwnSession(s: System, attempt: string) {
    && s.rec.session.Some? && s.rec.session.value.text != ""
    && attempt in s.attempts && s.rec.session.value.origin == s.attempts[attempt].target
  }

  // ----- what is reported is recorded

  /** The process of attempt `id`, with the target it was started on. */
  predicate ProcessOf(s: System, p: ProcessIdentity, id: string, pid: nat, createTime: real) {
    && p.pid == pid && p.createTime == createTime && p.attemptId == id
    && id in s.attempts && p.hostId == s.attempts[id].target
  }

  predicate RecordsProcess(t: System, id: string, pid: nat, createTime: real) {
    t.rec.process.Some? && ProcessOf(t, t.rec.process.value, id, pid, createTime)
  }

  /** Every process reported for an attempt is saved in that attempt's record, with the target
      of the attempt, whoever reports it and however late; a local one in two steps.  A new
      attempt is saved RUNNING, on the target it was dispatched to, and without any process. */
  lemma ReportsAreRecorded(s: System, t: System, e: Event)
    requires Enabled(s, e) && t == Next(s, e)
    ensures match e
            case InStart(Begin(id)) =>
              && t.rec.phase == Running && t.rec.lastAttemptId == Some(id) && t.rec.process == None
              && t.rec.executionTarget == Some(s.task.target) && t.rec.nextRunAt == None
              && id in t.attempts && t.attempts[id].target == s.task.target && Unlaunched(t.attempts[id].side)
            case InStart(WorkspaceReady(path, _)) => t.rec == Own(s).(workspacePath := Some(path))
            case InStart(SpawnLocal(pid, at)) =>
              && t.task.Spawned? && ProcessOf(t, t.task.identity, s.task.id, pid, at)
              && SideLive(t.attempts[s.task.id].side)
            case InFinish(RecordSpawn) => t.rec == Own(s).(process := Some(s.task.identity))
            case InFinish(RemoteStarted(pid, at)) =>
              RecordsProcess(t, s.task.id, pid, at) && t.rec == Own(s).(process := t.rec.process)
            case InFinish(StartedWhileStopping(pid, at)) =>
              RecordsProcess(t, s.task.id, pid, at) && t.rec == s.task.local.(process := t.rec.process)
            case InLoop(LateStart(held, pid, at)) =>
              RecordsProcess(t, held.lastAttemptId.value, pid, at) && t.rec == held.(process := t.rec.process)
            case _ => true
  {
    match e
    case OnTarget(_) =>
    case InStart(_) =>
    case InFinish(_) =>
    case InLoop(_) =>
  }

  // ----- blocked records

  /** A call of `_reap_state` returns true in this step, or has done so for this save. */
  predicate ReapReturnsTrue(s: System, e: Event) {
    Enabled(s, e) &&
    match e
    case InLoop(ReapBlocked(reap)) => reap == Confirmed
    case InLoop(Unblock(_)) => true
    case InLoop(ReapStale(reap)) => reap == Confirmed
    case InLoop(ReleaseStale) => true
    case InLoop(RecoverReap(reap)) => reap == Confirmed
    case InLoop(Recover(reap, _)) => NeedsReap(s.rec) && reap == Confirmed
    case _ => false
  }

  predicate NoReapReturnsTrue(s: System, es: seq<Event>) {
    es == [] || (NoReapReturnsTrue(s, es[..|es| - 1]) && !ReapReturnsTrue(Exec(s, es[..|es| - 1]), es[|es| - 1]))
  }

  /** An executor block of the same attempt on the same target. */
  predicate SameBlock(r: IssueState, f: IssueState) {
    ExecutorBlocked(f) && f.lastAttemptId == r.lastAttemptId && f.executionTarget == r.executionTarget
  }

  lemma BlockedTaskIsOver(s: System)
    requires Inv(s) && ExecutorBlocked(s.rec)
    ensures s.task.NoTask? || s.task.Ending?
  {}

  lemma BlockedLoopKept(s: System, t: System, e: LoopEvent)
    requires ExecutorBlocked(s.rec) && !ReapReturnsTrue(s, InLoop(e)) && (s.task.NoTask? || s.task.Ending?)
    requires LoopEnabled(s, e) && !LoopLapse(s, e) && t == LoopStep(s, e)
    ensures SameBlock(s.rec, t.rec)
  {}

  lemma BlockedStepKept(s: System, t: System, e: Event)
    requires Inv(s) && ExecutorBlocked(s.rec) && !ReapReturnsTrue(s, e) && !Lapse(s, e) && t == Next(s, e)
    ensures SameBlock(s.rec, t.rec)
    ensures !e.InLoop? ==> t.rec == s.rec && t.late == s.late && t.pass == s.pass
  {
    BlockedTaskIsOver(s);
    if e.InLoop? && LoopEnabled(s, e.l) {
      BlockedLoopKept(s, t, e.l);
    } else {
      assert t.rec == s.rec;
    }
  }

  /** A record blocked for an unconfirmed stop leaves the block, or loses its attempt or its
      target, only through a `_reap_state` that returned true. */
  lemma {:induction false} BlockedUntilConfirmed(s: System, es: seq<Event>)
    requires Inv(s) && ExecutorBlocked(s.rec) && OrderlyRun(s, es) && NoReapReturnsTrue(s, es)
    ensures SameBlock(s.rec, Exec(s, es).rec)
  {
    if es != [] {
      var before := es[..|es| - 1];
      BlockedUntilConfirmed(s, before);
      RunKeepsInv(s, before);
      BlockedStepKept(Exec(s, before), Exec(s, es), es[|es| - 1]);
    }
  }

  // ----- the evidence of a blocked record

  /** An unconfirmed reap saves the record it was given before its await, and a request left
      behind has recorded the process meanwhile. */
  predicate DropsProcess(s: System, e: Event) {
    e.InLoop? && e.l.ReapBlocked? && Enabled(s, e) && s.rec.process.Some? && s.pass.copy.process != s.rec.process
  }

  predicate NothingDropped(s: System, es: seq<Event>) {
    es == [] || (NothingDropped(s, es[..|es| - 1]) && !DropsProcess(Exec(s, es[..|es| - 1]), es[|es| - 1]))
  }

  /** No request left behind by the blocked attempt has a process to report. */
  predicate NothingToReport(s: System) {
    forall q | q in s.late && q.lastAttemptId == s.rec.lastAttemptId :: q.process.Some?
  }

  /** The process is neither in the record nor in the copy a pass has loaded. */
  predicate Forgotten(s: System, p: Option<ProcessIdentity>) {
    s.rec.process != p && (!s.pass.NoPass? ==> s.pass.copy.process != p)
  }

  lemma EvidenceLoopStep(s: System, t: System, e: LoopEvent)
    requires ExecutorBlocked(s.rec) && !ReapReturnsTrue(s, InLoop(e)) && (s.task.NoTask? || s.task.Ending?)
    requires LoopEnabled(s, e) && !LoopLapse(s, e) && t == LoopStep(s, e) && NothingToReport(s)
    ensures NothingToReport(t)
    ensures s.rec.process.Some? && !DropsProcess(s, InLoop(e)) ==> t.rec.process == s.rec.process
    ensures forall p :: Forgotten(s, p) ==> Forgotten(t, p)
    ensures DropsProcess(s, InLoop(e)) ==> Forgotten(t, s.rec.process)
  {
    BlockedLoopKept(s, t, e);
  }

  lemma EvidenceStep(s: System, t: System, e: Event)
    requires Inv(s) && ExecutorBlocked(s.rec) && !ReapReturnsTrue(s, e) && !Lapse(s, e) && t == Next(s, e)
    requires NothingToReport(s)
    ensures NothingToReport(t)
    ensures s.rec.process.Some? && !DropsProcess(s, e) ==> t.rec.process == s.rec.process
    ensures forall p :: Forgotten(s, p) ==> Forgotten(t, p)
    ensures DropsProcess(s, e) ==> Forgotten(t, s.rec.process)
  {
    BlockedTaskIsOver(s);
    BlockedStepKept(s, t, e);
    if e.InLoop? && LoopEnabled(s, e.l) {
      EvidenceLoopStep(s, t, e.l);
    }
  }

  lemma {:induction false} EvidenceOfRun(s: System, es: seq<Event>)
    requires Inv(s) && ExecutorBlocked(s.rec) && s.rec.process.Some? && OrderlyRun(s, es) && NoReapReturnsTrue(s, es)
    ensures NothingToReport(Exec(s, es))
    ensures if NothingDropped(s, es) then Exec(s, es).rec.process == s.rec.process
            else Forgotten(Exec(s, es), s.rec.process)
  {
    if es != [] {
      var before := es[..|es| - 1];
      EvidenceOfRun(s, before);
      BlockedUntilConfirmed(s, before);
      RunKeepsInv(s, before);
      EvidenceStep(Exec(s, before), Exec(s, es), es[|es| - 1]);
    }
  }

  /** Until then, the process a blocked record has recorded is still there if and only if no
      reap has saved a copy loaded before it was recorded. */
  lemma EvidenceUntilDropped(s: System, es: seq<Event>)
    requires Inv(s) && ExecutorBlocked(s.rec) && s.rec.process.Some? && OrderlyRun(s, es) && NoReapReturnsTrue(s, es)
    ensures Exec(s, es).rec.process == s.rec.process <==> NothingDropped(s, es)
  {
    EvidenceOfRun(s, es);
  }
}
