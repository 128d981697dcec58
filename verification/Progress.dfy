/**
 No issue is ever stuck: from every state of an orderly run the issue can be brought back to
 where it may be dispatched, and its next attempt can run, on any target, to a clean end.
 */
module Progress {
  import opened Wrappers
  import opened IssueRecords
  import opened ControlPlane
  import opened Containment
  import opened ControlInvariant
  import opened Hazards
  import opened HazardWitnesses
  import T = ControlTheorems
  import R = RemoteAttempt
  import RT = RemoteTheorems

  lemma StaysInOrder(o: System, s: System)
    requires Inv(o) && ReachesOrderly(o, s)
    ensures Inv(s)
  {
    var es :| OrderlyRun(o, es) && Exec(o, es) == s;
    T.RunKeepsInv(o, es);
  }

  /** A reap sent to the target of attempt `id` is confirmed, whatever process of it is known. */
  predicate Reapable(s: System, id: string) {
    id in s.attempts &&
    match s.attempts[id].side
    case LocalSide(agent) => agent != R.Live
    case RemoteSide(p) => R.Confirmed(p)
  }

  /** The executor of the attempt stops: its own end, or a cancel request that is confirmed. */
  lemma ComesToRest(o: System, s: System, id: string) returns (t: System)
    requires ReachesOrderly(o, s) && id in s.attempts
    ensures ReachesOrderly(o, t) && Reapable(t, id) && t == s.(attempts := t.attempts)
    ensures t.attempts.Keys == s.attempts.Keys && t.attempts[id].target == s.attempts[id].target
    ensures t.attempts[id].side.RemoteSide? == s.attempts[id].side.RemoteSide?
  {
    t := s;
    if s.attempts[id].side.RemoteSide? {
      t := AlwaysConfirms(o, s, id);
    } else if s.attempts[id].side.agent == R.Live {
      t := TargetStep(s, LocalExit(id));
      ReachesNext(o, s, t, OnTarget(LocalExit(id)));
    }
  }

  /** A record that leads to an attempt at rest may be reaped, saved or copied. */
  lemma ReapOfRestConfirms(s: System, r: IssueState)
    requires AttemptsOk(s.attempts, s.ssh) && Leads(r, s.attempts) && Reapable(s, r.lastAttemptId.value)
    ensures ReapAllowed(s, r, Confirmed)
  {
    assert AttemptOk(s.attempts, s.ssh, r.lastAttemptId.value);
  }

  // ----- a task comes to its end

  lemma HandlerEnds(o: System, s: System) returns (t: System)
    requires Inv(o) && ReachesOrderly(o, s) && s.task.Stopping?
    ensures ReachesOrderly(o, t) && t.task.NoTask? && t.up
  {
    StaysInOrder(o, s);
    var u := ComesToRest(o, s, s.task.id);
    StaysInOrder(o, u);
    HandlerMayEnd(u);
    var e := Stopped(true, Times(0.0, 0.0, 0.0));
    var v := FinishStep(u, e);
    ReachesFinish(o, u, v, e);
    t := v.(task := NoTask);
    ReachesFinish(o, v, t, TaskDone);
  }

  lemma HandlerMayEnd(s: System)
    requires Inv(s) && s.task.Stopping? && Reapable(s, s.task.id)
    ensures FinishEnabled(s, Stopped(true, Times(0.0, 0.0, 0.0))) && s.up
  {
    assert AttemptOk(s.attempts, s.ssh, s.task.id);
  }

  lemma TaskEnds(o: System, s: System) returns (t: System)
    requires Inv(o) && ReachesOrderly(o, s) && s.up
    ensures ReachesOrderly(o, t) && t.task.NoTask? && t.up
  {
    StaysInOrder(o, s);
    if s.task.NoTask? {
      t := s;
    } else if s.task.Ending? {
      t := s.(task := NoTask);
      ReachesFinish(o, s, t, TaskDone);
    } else if s.task.Dispatched? || s.task.Starting? {
      t := FinishStep(s, Interrupt(false, false));
      ReachesFinish(o, s, t, Interrupt(false, false));
    } else {
      t := AttemptEnds(o, s);
    }
  }

  lemma AttemptEnds(o: System, s: System) returns (t: System)
    requires Inv(o) && ReachesOrderly(o, s) && HoldsRecord(s.task) && !s.task.Starting?
    ensures ReachesOrderly(o, t) && t.task.NoTask? && t.up
  {
    var u := s;
    if s.task.Spawned? {
      u := FinishStep(s, RecordSpawn);
      ReachesFinish(o, s, u, RecordSpawn);
    }
    if !u.task.Stopping? {
      var v := FinishStep(u, Interrupt(true, false));
      ReachesFinish(o, u, v, Interrupt(true, false));
      u := v;
    }
    t := HandlerEnds(o, u);
  }

  // ----- a record without a task becomes ready

  lemma StaleIsReleased(o: System, s: System) returns (t: System)
    requires Inv(o) && ReachesOrderly(o, s) && s.up && s.task.NoTask? && s.rec.phase == Running
    ensures ReachesOrderly(o, t) && Idle(t)
  {
    StaysInOrder(o, s);
    var u := ComesToRest(o, s, s.rec.lastAttemptId.value);
    StaysInOrder(o, u);
    ReapOfRestConfirms(u, u.rec);
    var v := u.(pass := StalePass(u.rec));
    ReachesLoop(o, u, v, LoadStale);
    t := LoopStep(v, ReleaseStale);
    ReachesLoop(o, v, t, ReleaseStale);
  }

  lemma BlockIsReleased(o: System, s: System) returns (t: System)
    requires Inv(o) && ReachesOrderly(o, s) && s.up && s.task.NoTask? && ExecutorBlocked(s.rec)
    ensures ReachesOrderly(o, t) && Idle(t)
  {
    StaysInOrder(o, s);
    var u := ComesToRest(o, s, s.rec.lastAttemptId.value);
    StaysInOrder(o, u);
    ReapOfRestConfirms(u, u.rec);
    t := BlockIsReaped(o, u);
  }

  lemma BlockIsReaped(o: System, s: System) returns (t: System)
    requires ReachesOrderly(o, s) && s.up && s.task.NoTask? && s.memory.None? && ExecutorBlocked(s.rec)
    requires RecordReapAllowed(s, Confirmed)
    ensures ReachesOrderly(o, t) && Idle(t)
  {
    var u := s.(pass := BlockedPass(s.rec, false));
    ReachesLoop(o, s, u, LoadBlocked);
    var v := LoopStep(u, ReapBlocked(Confirmed));
    ReachesLoop(o, u, v, ReapBlocked(Confirmed));
    t := LoopStep(v, Unblock(Found(Active)));
    ReachesLoop(o, v, t, Unblock(Found(Active)));
  }

  lemma BecomesReady(o: System, s: System) returns (t: System)
    requires Inv(o) && ReachesOrderly(o, s) && s.up && s.task.NoTask?
    ensures ReachesOrderly(o, t) && Idle(t)
  {
    StaysInOrder(o, s);
    if s.rec.phase == Running {
      t := StaleIsReleased(o, s);
    } else if ExecutorBlocked(s.rec) {
      t := BlockIsReleased(o, s);
    } else if s.rec.phase == Blocked {
      t := LoopStep(s, RestorePlacement);
      ReachesLoop(o, s, t, RestorePlacement);
    } else if s.rec.phase == Released {
      t := LoopStep(s, Reactivate);
      ReachesLoop(o, s, t, Reactivate);
    } else {
      t := s;
    }
  }

  /** From every state of an orderly run an orderly run leads to a record that may be
      dispatched, and no task in the way. */
  lemma NoIssueIsStuck(s: System) returns (t: System)
    requires Inv(s)
    ensures ReachesOrderly(s, t) && Idle(t) && Inv(t)
  {
    ReachesSelf(s);
    var u := s;
    if !s.up {
      u := LoopStep(s, Recover(Unconfirmed, TrackerFailed));
      ReachesLoop(s, s, u, Recover(Unconfirmed, TrackerFailed));
    }
    var v := TaskEnds(s, u);
    t := BecomesReady(s, v);
    StaysInOrder(s, t);
  }

  // ----- and the next attempt can end well

  /** A clean turn of attempt `id` on `target` has just been counted. */
  predicate TurnDone(s: System, target: Target, id: string, text: string) {
    && s.rec.phase == ContinuationWait && s.rec.continuationIndex > 0 && s.rec.failureCount == 0
    && s.rec.lastAttemptId == Some(id) && s.rec.executionTarget == Some(target) && s.rec.totalAttempts > 0
    && s.rec.session == Some(Session(text, target))
    && id in s.attempts && s.attempts[id].target == target && !SideLive(s.attempts[id].side)
  }

  lemma ReturnIsCounted(o: System, s: System, e: FinishEvent, target: Target, id: string, text: string)
    returns (t: System)
    requires ReachesOrderly(o, s) && FinishEnabled(s, e) && s.memory.None? && s.task.Executing? && text != ""
    requires e == RemoteReturn(Response(CleanExit, Some(Session(text, target)), ""))
             || e == LocalReturn(CleanExit, Some(Session(text, target)), "")
    requires s.rec.lastAttemptId == Some(id) && s.rec.executionTarget == Some(target)
    requires id in s.attempts && s.attempts[id].target == target && !SideLive(s.attempts[id].side)
    ensures ReachesOrderly(o, t) && TurnDone(t, target, id, text)
  {
    var u := FinishStep(s, e);
    ReachesFinish(o, s, u, e);
    var last := Finish(Found(Active), Times(0.0, 0.0, 0.0));
    t := FinishStep(u, last);
    ReachesFinish(o, u, t, last);
  }

  lemma LocalTurn(o: System, s: System, target: Target, id: string, text: string) returns (t: System)
    requires ReachesOrderly(o, s) && Idle(s) && Spare(s, target, id) && text != ""
    ensures ReachesOrderly(o, t) && TurnDone(t, target, id, text)
  {
    var u := StartsAttempt(o, s, target, id);
    var v := RunsLocally(o, u, target, id);
    var w := TargetStep(v, LocalExit(id));
    ReachesNext(o, v, w, OnTarget(LocalExit(id)));
    t := ReturnIsCounted(o, w, LocalReturn(CleanExit, Some(Session(text, target)), ""), target, id, text);
  }

  /** The agent of a remote attempt runs to its end, and the helper answers. */
  lemma AgentFinishes(p: R.Attempt) returns (q: R.Attempt)
    requires p.runner == R.RunSpawned && p.agent == R.Live
    ensures R.Reaches(p, q) && q.runner == R.RunAnswered(true) && q.agent == R.Exited
  {
    RT.ReachesSelf(p);
    var a := R.Next(p, R.RunStep(true));
    RT.ReachesNext(p, p, R.RunStep(true));
    var b := R.Next(a, R.AgentExit);
    RT.ReachesNext(p, a, R.AgentExit);
    var c := R.Next(b, R.RunStep(true));
    RT.ReachesNext(p, b, R.RunStep(true));
    q := R.Next(c, R.RunStep(true));
    RT.ReachesNext(p, c, R.RunStep(true));
  }

  lemma HelperAnswers(o: System, s: System, id: string) returns (t: System)
    requires ReachesOrderly(o, s) && RunsRemotely(s, id) && RT.Sent(s.attempts[id].side.protocol)
    ensures ReachesOrderly(o, t) && OnSsh(t, id) && t == WithSide(s, id, t.attempts[id].side)
    ensures t.attempts[id].side.protocol.runner == R.RunAnswered(true) && !SideLive(t.attempts[id].side)
  {
    var p := s.attempts[id].side.protocol;
    var q := AgentFinishes(p);
    var es :| R.SafeRun(p, es) && R.Exec(p, es) == q;
    Lifts(o, s, id, es);
    t := WithSide(s, id, RemoteSide(q));
  }

  lemma RunsWasSent(o: System, s: System, id: string)
    requires Inv(o) && ReachesOrderly(o, s) && RunsRemotely(s, id)
    ensures RT.Sent(s.attempts[id].side.protocol)
  {
    StaysInOrder(o, s);
    assert AttemptOk(s.attempts, s.ssh, id);
  }

  lemma RemoteTurn(o: System, s: System, target: Target, id: string, text: string) returns (t: System)
    requires Inv(o) && ReachesOrderly(o, s) && Idle(s) && s.rec.lastOutcome != PlacementBlocked
    requires target in s.ssh && target != "" && id !in s.attempts && id != "" && text != ""
    ensures ReachesOrderly(o, t) && TurnDone(t, target, id, text)
  {
    var u := LaunchesRemotely(o, s, target, id);
    t := RemoteReturns(o, u, target, id, text);
  }

  lemma RemoteReturns(o: System, s: System, target: Target, id: string, text: string) returns (t: System)
    requires Inv(o) && ReachesOrderly(o, s) && RunsRemotely(s, id) && s.attempts[id].target == target && text != ""
    ensures ReachesOrderly(o, t) && TurnDone(t, target, id, text)
  {
    RunsWasSent(o, s, id);
    var u := HelperAnswers(o, s, id);
    var e := RemoteReturn(Response(CleanExit, Some(Session(text, target)), ""));
    MayReturn(u, e, id, target);
    t := ReturnIsCounted(o, u, e, target, id, text);
  }

  lemma MayReturn(s: System, e: FinishEvent, id: string, target: Target)
    requires s.task.Executing? && s.task.id == id && OnSsh(s, id) && s.attempts[id].target == target
    requires s.attempts[id].side.protocol.runner == R.RunAnswered(true)
    requires e.RemoteReturn? && e.exit.Response? && e.exit.session.Some? && e.exit.session.value.origin == target
    ensures FinishEnabled(s, e)
  {}

  /** From every state of an orderly run the issue can have a clean turn: on any target, local
      or ssh, and with any session. */
  lemma EveryIssueCanGoOn(s: System, target: Target, text: string) returns (t: System, id: string)
    requires Inv(s) && target != "" && text != ""
    ensures ReachesOrderly(s, t) && TurnDone(t, target, id, text)
  {
    var u := NoIssueIsStuck(s);
    id := UnusedId(u);
    KeepsTargets(s, u);
    if target in u.ssh {
      t := RemoteTurn(s, u, target, id, text);
    } else {
      t := LocalTurn(s, u, target, id, text);
    }
  }

  lemma KeepsTargets(o: System, s: System)
    requires ReachesOrderly(o, s)
    ensures s.ssh == o.ssh && s.home == o.home
  {
    var es :| OrderlyRun(o, es) && Exec(o, es) == s;
    T.HomeIsFixed(o, es);
  }

  lemma UnusedId(s: System) returns (id: string)
    ensures id !in s.attempts && id != ""
  {
    id := LongerThan(s.attempts.Keys);
  }

  /** A text longer than all of these. */
  lemma LongerThan(texts: set<string>) returns (id: string)
    ensures id != "" && forall x | x in texts :: |x| < |id|
  {
    if texts == {} {
      id := "x";
    } else {
      var x :| x in texts;
      var rest := LongerThan(texts - {x});
      id := if |x| < |rest| then rest else x + "x";
      assert forall y | y in texts :: y == x || y in texts - {x};
    }
  }
}
