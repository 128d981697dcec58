/**
 The hazards of the control plane are exactly the steps after which an issue can get a
 second executor.
 */
module Hazards {
  import opened Wrappers
  import opened IssueRecords
  import opened ControlPlane
  import opened Containment
  import opened ContainmentSteps
  import opened LoopContainment
  import opened TaskContainment
  import T = ControlTheorems
  import R = RemoteAttempt
  import RT = RemoteTheorems

  predicate LiveAttempt(s: System, id: string) {
    id in s.attempts && SideLive(s.attempts[id].side)
  }

  ghost predicate TwoLive(s: System) {
    exists a, b :: a != b && LiveAttempt(s, a) && LiveAttempt(s, b)
  }

  lemma ReachesSelf(s: System)
    ensures ReachesOrderly(s, s)
  {
    assert OrderlyRun(s, []) && Exec(s, []) == s;
  }

  lemma ReachesNext(s: System, t: System, u: System, e: Event)
    requires ReachesOrderly(s, t) && !Lapse(t, e) && u == Next(t, e)
    ensures ReachesOrderly(s, u)
  {
    var es :| OrderlyRun(s, es) && Exec(s, es) == t;
    var fs := es + [e];
    assert fs[..|fs| - 1] == es;
    assert OrderlyRun(s, fs) && Exec(s, fs) == u;
  }

  lemma ReachesHost(s: System, t: System, u: System, id: string, e: R.Event)
    requires ReachesOrderly(s, t) && TargetEnabled(t, HostStep(id, e)) && !R.Hazard(t.attempts[id].side.protocol, e)
    requires u == WithSide(t, id, RemoteSide(R.Next(t.attempts[id].side.protocol, e)))
    ensures ReachesOrderly(s, u)
  {
    ReachesNext(s, t, u, OnTarget(HostStep(id, e)));
  }

  lemma ReachesStart(s: System, t: System, u: System, e: StartEvent)
    requires ReachesOrderly(s, t) && StartEnabled(t, e) && u == StartStep(t, e)
    ensures ReachesOrderly(s, u)
  {
    ReachesNext(s, t, u, InStart(e));
  }

  lemma ReachesFinish(s: System, t: System, u: System, e: FinishEvent)
    requires ReachesOrderly(s, t) && FinishEnabled(t, e) && u == FinishStep(t, e)
    ensures ReachesOrderly(s, u)
  {
    ReachesNext(s, t, u, InFinish(e));
  }

  lemma ReachesLoop(s: System, t: System, u: System, e: LoopEvent)
    requires ReachesOrderly(s, t) && LoopEnabled(t, e) && !LoopLapse(t, e) && u == LoopStep(t, e)
    ensures ReachesOrderly(s, u)
  {
    ReachesNext(s, t, u, InLoop(e));
  }

  /** What a second attempt needs: a local target and an unused attempt id. */
  predicate Spare(s: System, target: Target, id: string) {
    target !in s.ssh && target != "" && id !in s.attempts && id != ""
  }

  /** Some orderly run leads to two live agents of the issue. */
  ghost predicate Doubled(o: System) {
    exists t :: ReachesOrderly(o, t) && TwoLive(t)
  }

  /** An issue the loop may dispatch. */
  predicate Idle(s: System) {
    s.up && s.task.NoTask? && s.memory.None? && Dispatchable(s.rec.phase)
  }

  ghost predicate Sound(side: Side) {
    SideLive(side) || (side.RemoteSide? ==> R.Inv(side.protocol))
  }

  // ----- a second executor is always at hand

  lemma LaunchesLocally(o: System, s: System, target: Target, id: string) returns (t: System)
    requires ReachesOrderly(o, s) && Idle(s)
    requires Spare(s, target, id)
    ensures ReachesOrderly(o, t) && t.attempts == s.attempts[id := Attempt(target, LocalSide(R.Live))]
    ensures t.task.Spawned? && t.task.id == id && Own(t).lastAttemptId == Some(id)
  {
    var u := StartsAttempt(o, s, target, id);
    var v := PreparesLocally(o, u, id);
    t := SpawnsLocally(o, v, id);
    assert s.attempts[id := u.attempts[id]][id := t.attempts[id]] == s.attempts[id := t.attempts[id]];
  }

  lemma PreparesLocally(o: System, s: System, id: string) returns (t: System)
    requires ReachesOrderly(o, s) && s.task == Starting(id) && OnLocal(s, id, R.NotSpawned)
    ensures ReachesOrderly(o, t) && t.attempts == s.attempts && t.task.Launching? && t.task.id == id
    ensures t.memory.None? && t.late == s.late && t.pass == s.pass && t.up == s.up && t.ssh == s.ssh
    ensures t.rec == Own(s).(workspacePath := t.rec.workspacePath)
  {
    var u := s.(task := Preparing(id));
    ReachesStart(o, s, u, EnterTry);
    t := StartStep(u, WorkspaceReady("", false));
    ReachesStart(o, u, t, WorkspaceReady("", false));
  }

  lemma SpawnsLocally(o: System, s: System, id: string) returns (t: System)
    requires ReachesOrderly(o, s) && s.task.Launching? && s.task.id == id && s.memory.None?
    requires OnLocal(s, id, R.NotSpawned)
    ensures ReachesOrderly(o, t) && t.attempts == s.attempts[id := Attempt(s.attempts[id].target, LocalSide(R.Live))]
    ensures t.task.Spawned? && t.task.id == id
    ensures t.memory.None? && t.late == s.late && t.pass == s.pass && t.up == s.up && t.ssh == s.ssh
    ensures t.rec == s.rec
  {
    t := StartStep(s, SpawnLocal(0, 0.0));
    ReachesStart(o, s, t, SpawnLocal(0, 0.0));
  }

  lemma StartsAttempt(o: System, s: System, target: Target, id: string) returns (t: System)
    requires ReachesOrderly(o, s) && Idle(s) && target != "" && id !in s.attempts && id != ""
    ensures ReachesOrderly(o, t) && t.task == Starting(id) && t.rec.lastAttemptId == Some(id) && t.rec.phase == Running
    ensures t.up
    ensures t.rec.lastOutcome == s.rec.lastOutcome && t.rec.process.None? && t.rec.executionTarget == Some(target)
    ensures t.ssh == s.ssh && t.memory.None? && t.late == s.late
    ensures t.attempts ==
            s.attempts[id := Attempt(target, if target in s.ssh then RemoteSide(R.FRESH) else LocalSide(R.NotSpawned))]
  {
    var u := StartStep(s, Dispatch(target));
    ReachesStart(o, s, u, Dispatch(target));
    t := StartStep(u, Begin(id));
    ReachesStart(o, u, t, Begin(id));
  }

  /** A run of the protocol alone is a run of the issue. */
  lemma {:induction false} Lifts(o: System, s: System, id: string, es: seq<R.Event>)
    requires ReachesOrderly(o, s) && id in s.attempts && s.attempts[id].side.RemoteSide?
    requires RT.Sent(s.attempts[id].side.protocol) && R.SafeRun(s.attempts[id].side.protocol, es)
    ensures RT.Sent(R.Exec(s.attempts[id].side.protocol, es))
    ensures ReachesOrderly(o, WithSide(s, id, RemoteSide(R.Exec(s.attempts[id].side.protocol, es))))
  {
    var p := s.attempts[id].side.protocol;
    if es == [] {
      assert s.attempts[id := s.attempts[id]] == s.attempts;
    } else {
      var n := |es| - 1;
      Lifts(o, s, id, es[..n]);
      var q := R.Exec(p, es[..n]);
      var t := WithSide(s, id, RemoteSide(q));
      RT.SentPersists(q, es[n]);
      if R.Next(q, es[n]) != q {
        ReachesHost(o, t, WithSide(t, id, RemoteSide(R.Next(q, es[n]))), id, es[n]);
        assert WithSide(t, id, RemoteSide(R.Next(q, es[n]))) == WithSide(s, id, RemoteSide(R.Next(q, es[n])));
      }
    }
  }

  /** An attempt that is not quiet gets its agent running without anybody's help. */
  lemma WakesUp(o: System, s: System, id: string) returns (t: System)
    requires ReachesOrderly(o, s) && id in s.attempts && !Quiet(s.attempts[id].side) && Sound(s.attempts[id].side)
    ensures ReachesOrderly(o, t) && LiveAttempt(t, id) && t == WithSide(s, id, t.attempts[id].side)
    ensures !SideLive(s.attempts[id].side) ==>
              t.attempts[id].side.RemoteSide? && t.attempts[id].side.protocol.runner == R.RunSpawned
              && t.attempts[id].side.protocol.lease == Some(R.RunHelper)
  {
    if SideLive(s.attempts[id].side) {
      t := s;
      assert s.attempts[id := s.attempts[id]] == s.attempts;
    } else {
      var p := s.attempts[id].side.protocol;
      RT.ReachesSelf(p);
      var q := RT.RunsToLive(p, p);
      var es :| R.SafeRun(p, es) && R.Exec(p, es) == q;
      Lifts(o, s, id, es);
      t := WithSide(s, id, RemoteSide(q));
    }
  }

  lemma Doubles(o: System, s: System, old0: string, target: Target, id: string)
    requires ReachesOrderly(o, s) && Idle(s) && old0 in s.attempts && !Quiet(s.attempts[old0].side)
    requires Sound(s.attempts[old0].side)
    requires Spare(s, target, id)
    ensures Doubled(o)
  {
    var t := LaunchesLocally(o, s, target, id);
    var u := WakesUp(o, t, old0);
    assert LiveAttempt(t, id);
    assert LiveAttempt(u, old0) && LiveAttempt(u, id);
    assert TwoLive(u);
  }

  // ----- from each hazard to an idle record

  /** The attempt that is lost. */
  predicate Lost(s: System, id: string) {
    Own(s).lastAttemptId == Some(id) && id in s.attempts && !Quiet(s.attempts[id].side)
  }

  lemma LostAttempt(s: System) returns (old0: string)
    requires Contained(s) && !Quiescent(s)
    ensures Lost(s, old0)
  {
    old0 :| old0 in s.attempts && !Quiet(s.attempts[old0].side);
  }

  /** Once the labels are mended the record is ready. */
  lemma RefusalForgets(s: System, old0: string, target: Target, id: string)
    requires Contained(s) && Lost(s, old0) && LoopLapse(s, RefusePlacement) && Spare(s, target, id)
    ensures Doubled(LoopStep(s, RefusePlacement))
  {
    assert AttemptOk(s.attempts, s.ssh, old0);
    var o := LoopStep(s, RefusePlacement);
    ReachesSelf(o);
    var u := LoopStep(o, RestorePlacement);
    ReachesLoop(o, o, u, RestorePlacement);
    Doubles(o, u, old0, target, id);
  }

  /** A cold start that finds this record can take attempt `old0` for stopped: the record is of
      an earlier attempt, which a new request can confirm; or nothing of it asks for a reap; or
      it sends the reap to a local target without evidence. */
  predicate Loses(s: System, r: IssueState, old0: string) {
    && r.lastOutcome != PlacementBlocked
    && (|| (Earlier(r, s.attempts) && r.lastAttemptId != Some(old0))
        || (r.process.None? && !HoldsBack(r))
        || (r.process.None? && Leads(r, s.attempts) && r.executionTarget.value !in s.ssh))
  }

  lemma {:induction false} Cancels(o: System, s: System, id: string, k: nat) returns (t: System)
    requires ReachesOrderly(o, s) && OnSsh(s, id) && RT.Willing(s.attempts[id].side.protocol, k)
    ensures ReachesOrderly(o, t) && OnSsh(t, id) && t == WithSide(s, id, t.attempts[id].side)
    ensures R.Confirmed(t.attempts[id].side.protocol)
    ensures s.attempts[id].side.protocol.agent != R.NotSpawned ==> t.attempts[id].side.protocol.agent != R.NotSpawned
    decreases RT.Patience(s.attempts[id].side.protocol.cancels[k])
  {
    var p := s.attempts[id].side.protocol;
    var q := R.Next(p, R.CancelStep(k, true));
    RT.CancelAdvances(p, q, k);
    var u := WithSide(s, id, RemoteSide(q));
    ReachesHost(o, s, u, id, R.CancelStep(k, true));
    if R.Confirmed(q) {
      t := u;
    } else {
      t := Cancels(o, u, id, k);
      assert WithSide(u, id, t.attempts[id].side) == WithSide(s, id, t.attempts[id].side);
    }
  }

  /** A new cancel request for any remote attempt may end confirmed. */
  lemma AlwaysConfirms(o: System, s: System, id: string) returns (t: System)
    requires ReachesOrderly(o, s) && OnSsh(s, id)
    ensures ReachesOrderly(o, t) && OnSsh(t, id) && t == WithSide(s, id, t.attempts[id].side)
    ensures R.Confirmed(t.attempts[id].side.protocol)
    ensures s.attempts[id].side.protocol.agent != R.NotSpawned ==> t.attempts[id].side.protocol.agent != R.NotSpawned
  {
    var p := s.attempts[id].side.protocol;
    var u := WithSide(s, id, RemoteSide(R.Next(p, R.SendCancel)));
    ReachesHost(o, s, u, id, R.SendCancel);
    t := Cancels(o, u, id, |p.cancels|);
    assert WithSide(u, id, t.attempts[id].side) == WithSide(s, id, t.attempts[id].side);
  }

  /** A cold start that can confirm the reap of a live executor. */
  lemma ColdStartForgets(o: System, s: System, old0: string, target: Target, id: string)
    requires ReachesOrderly(o, s) && !s.up && s.task.NoTask? && s.memory.None? && s.rec.lastOutcome != PlacementBlocked
    requires NeedsReap(s.rec) ==> RecordReapAllowed(s, Confirmed)
    requires old0 in s.attempts && !Quiet(s.attempts[old0].side) && Sound(s.attempts[old0].side) && Spare(s, target, id)
    ensures Doubled(o)
  {
    var u := LoopStep(s, Recover(Confirmed, Found(Active)));
    ReachesLoop(o, s, u, Recover(Confirmed, Found(Active)));
    Doubles(o, u, old0, target, id);
  }

  lemma ColdStartLoses(o: System, s: System, old0: string, target: Target, id: string)
    requires ReachesOrderly(o, s) && !s.up && s.task.NoTask? && s.memory.None?
    requires AttemptsOk(s.attempts, s.ssh) && Loses(s, s.rec, old0)
    requires old0 in s.attempts && !Quiet(s.attempts[old0].side) && Spare(s, target, id)
    ensures Doubled(o)
  {
    assert AttemptOk(s.attempts, s.ssh, old0);
    if Earlier(s.rec, s.attempts) && s.rec.lastAttemptId != Some(old0) {
      var earlier := s.rec.lastAttemptId.value;
      assert AttemptOk(s.attempts, s.ssh, earlier);
      var t := AlwaysConfirms(o, s, earlier);
      assert ReapAttempt(t.rec) == Some(earlier) && ReapTarget(t.rec, t.home) == t.attempts[earlier].target;
      ColdStartForgets(o, t, old0, target, id);
    } else {
      if NeedsReap(s.rec) {
        EmptyReapConfirms(s);
      }
      ColdStartForgets(o, s, old0, target, id);
    }
  }

  lemma EmptyReapConfirms(s: System)
    requires AttemptsOk(s.attempts, s.ssh) && s.rec.process.None? && Leads(s.rec, s.attempts)
    requires s.rec.executionTarget.value !in s.ssh
    ensures RecordReapAllowed(s, Confirmed)
  {
    assert AttemptOk(s.attempts, s.ssh, s.rec.lastAttemptId.value);
  }

  /** The scheduler dies while the saved record loses the executor. */
  lemma CrashLoses(o: System, s: System, old0: string, target: Target, id: string)
    requires ReachesOrderly(o, s) && !s.task.Spawned?
    requires AttemptsOk(s.attempts, s.ssh) && Loses(s, s.rec, old0)
    requires old0 in s.attempts && !Quiet(s.attempts[old0].side) && Spare(s, target, id)
    ensures Doubled(o)
  {
    var u := LoopStep(s, Crash);
    ReachesLoop(o, s, u, Crash);
    ColdStartLoses(o, u, old0, target, id);
  }

  lemma CrashForgets(s: System, old0: string, target: Target, id: string)
    requires Contained(s) && Lost(s, old0) && LoopLapse(s, Crash) && Spare(s, target, id)
    ensures Doubled(LoopStep(s, Crash))
  {
    assert AttemptOk(s.attempts, s.ssh, old0);
    var o := LoopStep(s, Crash);
    ReachesSelf(o);
    ColdStartLoses(o, o, old0, target, id);
  }

  // ----- the saves of the passes and of requests left behind

  /** What a pass makes of a copy that does not track the executor. */
  lemma CopyLoses(s: System, f: IssueState, old0: string)
    requires Contained(s) && !s.pass.NoPass? && CopyFits(s) && Own(s).lastAttemptId == Some(old0)
    requires !StillTracks(s, s.pass.copy) && s.pass.copy.lastOutcome != PlacementBlocked
    requires f.lastAttemptId == s.pass.copy.lastAttemptId && f.executionTarget == s.pass.copy.executionTarget
    requires f.lastOutcome == s.pass.copy.lastOutcome && (f.process.None? || f.process == s.pass.copy.process)
    requires f.phase == s.pass.copy.phase || f.phase == Blocked
    ensures Loses(s, f, old0)
  {
    if s.pass.copy.lastAttemptId != Some(old0) {
      assert Earlier(f, s.attempts);
    } else {
      assert Leads(f, s.attempts);
    }
  }

  lemma WrittenLoses(s: System, t: System, e: LoopEvent, old0: string)
    requires Contained(s) && Hazard(s, InLoop(e)) && t == LoopStep(s, e)
    requires e.ReapBlocked? || e.RefreshWaiting?
    requires Own(s).lastAttemptId == Some(old0)
    ensures Loses(t, t.rec, old0)
  {
    CopyLoses(s, t.rec, old0);
  }

  lemma SaveLoses(s: System, t: System, e: LoopEvent, old0: string)
    requires Contained(s) && Hazard(s, InLoop(e)) && t == LoopStep(s, e) && !e.RefusePlacement? && !e.Crash?
    requires Own(s).lastAttemptId == Some(old0)
    ensures Loses(t, t.rec, old0)
  {
    if e.ReapBlocked? || e.RefreshWaiting? {
      WrittenLoses(s, t, e, old0);
    } else if e.LateStart? {
      assert Earlier(e.held, s.attempts);
    } else if e.ReleasePlacement? {
      PlacementCopyIsQuiet(s);
    }
  }

  lemma HazardHasOwner(s: System, e: LoopEvent)
    requires Contained(s) && Hazard(s, InLoop(e)) && !e.RefusePlacement? && !e.Crash?
    ensures Own(s).lastAttemptId.Some? && Own(s).lastAttemptId.value in s.attempts && !s.task.Spawned?
    ensures !Quiescent(s) ==> !Quiet(s.attempts[Own(s).lastAttemptId.value].side)
    ensures Quiescent(s) ==> AboutToRun(s) && s.task.id == Own(s).lastAttemptId.value
  {}

  /** A record that loses the executor is on disk while the executor runs, or is about to. */
  lemma SaveForgets(s: System, e: LoopEvent, target: Target, id: string)
    requires Contained(s) && Hazard(s, InLoop(e)) && !e.RefusePlacement? && !e.Crash? && Spare(s, target, id)
    ensures Doubled(LoopStep(s, e))
  {
    HazardHasOwner(s, e);
    var old0 := Own(s).lastAttemptId.value;
    var o := LoopStep(s, e);
    SaveLoses(s, o, e, old0);
    OnlyRecordsChange(s, o, e);
    ReachesSelf(o);
    if Quiescent(s) {
      LaunchIsReady(s, old0);
      SendingForgets(o, old0, target, id);
    } else {
      CrashLoses(o, o, old0, target, id);
    }
  }

  lemma LaunchIsReady(s: System, old0: string)
    requires Contained(s) && AboutToRun(s) && s.task.id == old0
    ensures StartEnabled(s, SendRun)
  {}

  lemma SendingForgets(s: System, old0: string, target: Target, id: string)
    requires AttemptsOk(s.attempts, s.ssh) && Loses(s, s.rec, old0) && StartEnabled(s, SendRun) && s.task.id == old0
    requires AboutToRun(s) && Spare(s, target, id)
    ensures Doubled(s)
  {
    assert AttemptOk(s.attempts, s.ssh, old0);
    R.StepKeepsInv(s.attempts[old0].side.protocol, R.SendRun);
    var u := StartStep(s, SendRun);
    ReachesSelf(s);
    ReachesStart(s, s, u, SendRun);
    SendingLoses(s, u, old0);
    CrashLoses(s, u, old0, target, id);
  }

  lemma OnlyRecordsChange(s: System, t: System, e: LoopEvent)
    requires LoopEnabled(s, e) && t == LoopStep(s, e) && !e.Crash?
    ensures t.attempts == s.attempts && t.task == s.task && t.ssh == s.ssh
  {}

  /** The `run` request is sent. */
  lemma SendingLoses(s: System, t: System, old0: string)
    requires AttemptsOk(s.attempts, s.ssh) && Loses(s, s.rec, old0) && StartEnabled(s, SendRun) && s.task.id == old0
    requires t == StartStep(s, SendRun) && R.Inv(t.attempts[old0].side.protocol) && AboutToRun(s)
    ensures AttemptsOk(t.attempts, t.ssh) && Loses(t, t.rec, old0) && !Quiet(t.attempts[old0].side)
  {
    OtherAttemptsOk(s, t, old0);
  }

  lemma HelperCrashForgets(s: System, old0: string, target: Target, id: string)
    requires Contained(s) && Lapse(s, OnTarget(HostStep(old0, R.RunCrash)))
    requires Spare(s, target, id)
    ensures Doubled(Next(s, OnTarget(HostStep(old0, R.RunCrash))))
  {
    assert AttemptOk(s.attempts, s.ssh, old0);
    UnsafeCrashIsHazard(s, old0, R.RunCrash);
    var p := s.attempts[old0].side.protocol;
    var q := R.Next(p, R.RunCrash);
    var o := WithSide(s, old0, RemoteSide(q));
    assert o == Next(s, OnTarget(HostStep(old0, R.RunCrash)));
    ReachesSelf(o);
    var v := ViolationIsReached(o, s, old0, p, q);
    ConfirmedDeathForgets(o, s, WithSide(s, old0, RemoteSide(v)), old0, target, id);
  }

  lemma ViolationIsReached(o: System, s: System, old0: string, p: R.Attempt, q: R.Attempt) returns (v: R.Attempt)
    requires R.Inv(p) && R.Enabled(p, R.RunCrash) && !R.CrashSafe(p) && q == R.Step(p, R.RunCrash) && RT.Sent(q)
    requires old0 in s.attempts && o == WithSide(s, old0, RemoteSide(q))
    ensures RT.Violated(v) && ReachesOrderly(o, WithSide(s, old0, RemoteSide(v)))
  {
    v := RT.UnsafeCrashMisleads(p);
    var es :| R.SafeRun(q, es) && R.Exec(q, es) == v;
    ReachesSelf(o);
    Lifts(o, o, old0, es);
    assert WithSide(o, old0, RemoteSide(v)) == WithSide(s, old0, RemoteSide(v));
  }

  /** The scheduler restarts after a cancel helper confirmed the stop of a live agent. */
  lemma ConfirmedDeathForgets(o: System, s: System, t: System, old0: string, target: Target, id: string)
    requires Contained(s) && Lost(s, old0) && s.attempts[old0].side.RemoteSide?
    requires old0 in t.attempts && t == WithSide(s, old0, t.attempts[old0].side) && ReachesOrderly(o, t)
    requires t.attempts[old0].side.RemoteSide? && RT.Violated(t.attempts[old0].side.protocol)
    requires Spare(s, target, id)
    ensures Doubled(o)
  {
    assert AttemptOk(s.attempts, s.ssh, old0);
    assert Tracks(s) && !s.task.Spawned?;
    var u := LoopStep(t, Crash);
    ReachesLoop(o, t, u, Crash);
    ColdStartForgets(o, u, old0, target, id);
  }

  lemma LoopHazardDoubles(s: System, l: LoopEvent, target: Target, id: string)
    requires Contained(s) && Hazard(s, InLoop(l)) && Spare(s, target, id)
    ensures Doubled(Next(s, InLoop(l)))
  {
    if l.RefusePlacement? {
      var old0 := LostAttempt(s);
      RefusalForgets(s, old0, target, id);
    } else if l.Crash? {
      var old0 := LostAttempt(s);
      CrashForgets(s, old0, target, id);
    } else {
      SaveForgets(s, l, target, id);
    }
  }

  /** After a hazard an orderly run leads to two live agents. */
  lemma HazardDoubles(s: System, e: Event, target: Target, id: string)
    requires Contained(s) && Hazard(s, e) && Spare(s, target, id)
    ensures Doubled(Next(s, e))
  {
    match e
    case OnTarget(HostStep(old0, pe)) =>
      assert pe == R.RunCrash;
      HelperCrashForgets(s, old0, target, id);
    case InLoop(l) => LoopHazardDoubles(s, l, target, id);
  }

  lemma OrderlyReaches(s: System, t: System)
    requires ReachesOrderly(s, t)
    ensures Reaches(s, t)
  {
    var es :| OrderlyRun(s, es) && Exec(s, es) == t;
    T.OrderlyIsSafe(s, es);
  }

  lemma SafeStepNeverDoubles(s: System, t: System, u: System, e: Event)
    requires Contained(s) && !Hazard(s, e) && t == Next(s, e) && Reaches(t, u)
    ensures !TwoLive(u)
  {
    StepContained(s, e);
    var es :| SafeRun(t, es) && Exec(t, es) == u;
    RunContained(t, es);
    T.AtMostOneLive(u);
  }

  /** Exactly the hazards: from any state of a safe run, a step can lead to two live
      executors of the issue if and only if it is a hazard: after a hazard even an orderly run
      does, after any other step no safe one.  (`target` is any local target, `id` any unused
      attempt id.) */
  lemma HazardsAreExact(s: System, e: Event, target: Target, id: string)
    requires Contained(s) && Spare(s, target, id)
    ensures Hazard(s, e) <==> exists t :: Reaches(Next(s, e), t) && TwoLive(t)
    ensures Hazard(s, e) <==> Doubled(Next(s, e))
  {
    if Hazard(s, e) {
      HazardDoubles(s, e, target, id);
      var t :| ReachesOrderly(Next(s, e), t) && TwoLive(t);
      OrderlyReaches(Next(s, e), t);
    } else {
      forall t | Reaches(Next(s, e), t) || ReachesOrderly(Next(s, e), t)
        ensures !TwoLive(t)
      {
        if !Reaches(Next(s, e), t) {
          OrderlyReaches(Next(s, e), t);
        }
        SafeStepNeverDoubles(s, Next(s, e), t, e);
      }
    }
  }
}
