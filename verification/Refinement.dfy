/**
 What the scheduler object saves is what the per-issue machine allows: for truthful
 answers, every pass over a record and every end of an attempt is a run of
 `ControlPlane`, so the theorems about its runs hold of the scheduler.  Two passes can
 lapse, and it is said exactly when.
 */
module Refinement {
  import opened IssueRecords
  import opened ControlPlane
  import opened Placement
  import opened Recovery
  import opened Passes
  import R = RemoteAttempt

  /** A confirmed cancel request was confirmed by the attempt's host, and an identity
      that matches no process does not name a live agent. */
  ghost predicate Truthful(s: System, w: Answers) {
    && w.ssh == s.ssh && w.home == s.home
    && (forall t, id | (t, id) in w.confirms && id in s.attempts
                       && s.attempts[id].target == t && s.attempts[id].side.RemoteSide? ::
          R.Confirmed(s.attempts[id].side.protocol))
    && (forall p | p in w.gone && p.attemptId in s.attempts && s.attempts[p.attemptId].side.LocalSide? ::
          s.attempts[p.attemptId].side.agent != R.Live)
  }

  /** `ExecutionTarget.reap` confirms only what the machine lets it confirm. */
  lemma TruthfulReap(s: System, w: Answers)
    requires Truthful(s, w)
    ensures RecordReapAllowed(s, ReapOf(w, s.rec))
  {}

  /** One more event at the end of a run. */
  lemma Then(s: System, es: seq<Event>, e: Event)
    ensures Exec(s, es + [e]) == Next(Exec(s, es), e)
    ensures OrderlyRun(s, es + [e]) <==> OrderlyRun(s, es) && !Lapse(Exec(s, es), e)
  {
    assert (es + [e])[..|es + [e]| - 1] == es;
  }

  /** A run from `s` to `t`, without a lapse just when `orderly` holds. */
  ghost predicate IsRun(s: System, t: System, es: seq<Event>, orderly: bool) {
    Exec(s, es) == t && (OrderlyRun(s, es) <==> orderly)
  }

  lemma LoopThen(s: System, t: System, es: seq<Event>, orderly: bool, l: LoopEvent)
    requires IsRun(s, t, es, orderly) && LoopEnabled(t, l)
    ensures IsRun(s, LoopStep(t, l), es + [InLoop(l)], orderly && !LoopLapse(t, l))
  {
    Then(s, es, InLoop(l));
  }

  lemma ExtendOrderly(s: System, t: System, es: seq<Event>, orderly: bool, l: LoopEvent)
    requires IsRun(s, t, es, orderly) && LoopEnabled(t, l) && !LoopLapse(t, l)
    ensures IsRun(s, LoopStep(t, l), es + [InLoop(l)], orderly)
  {
    LoopThen(s, t, es, orderly, l);
  }

  /** `_reconcile_blocked`, of a record nobody else saves meanwhile. */
  lemma BlockedPassIsARun(s: System, w: Answers, active: set<string>, issue: string)
    returns (es: seq<Event>, pass: Pass)
    requires s.up && s.task.NoTask? && s.memory.None? && Truthful(s, w)
    ensures IsRun(s, s.(rec := BlockedPassed(w, active, issue, s.rec), pass := pass), es, true)
  {
    ExtendOrderly(s, s, [], true, LoadBlocked);
    es, pass := [] + [InLoop(LoadBlocked)], BlockedPass(s.rec, false);
    var t := s.(pass := pass);
    var answer := BlockedAnswer(w, active, issue);
    if s.rec.phase == Blocked && s.rec.lastOutcome == PlacementBlocked {
      if answer.Found? && answer.disposition != Active {
        ExtendOrderly(s, t, es, true, ReleasePlacement);
        es, pass := es + [InLoop(ReleasePlacement)], NoPass;
      }
    } else if s.rec.phase == Blocked {
      es, pass := BlockedReapIsARun(s, t, es, w, answer);
    }
  }

  lemma BlockedReapIsARun(s: System, t: System, es: seq<Event>, w: Answers, answer: TrackerAnswer)
    returns (fs: seq<Event>, pass: Pass)
    requires IsRun(s, t, es, true) && t.up && t.task.NoTask? && t.memory.None? && Truthful(t, w)
    requires t.pass == BlockedPass(t.rec, false) && ExecutorBlocked(t.rec)
    ensures var reap := ReapOf(w, t.rec);
            var r := if reap == Confirmed then Unblocked(Reaped(t.rec, reap), answer) else Reaped(t.rec, reap);
            IsRun(s, t.(rec := r, pass := pass), fs, true)
  {
    var reap := ReapOf(w, t.rec);
    TruthfulReap(t, w);
    var u := LoopStep(t, ReapBlocked(reap));
    ExtendOrderly(s, t, es, true, ReapBlocked(reap));
    fs, pass := es + [InLoop(ReapBlocked(reap))], u.pass;
    if reap == Confirmed {
      ExtendOrderly(s, u, fs, true, Unblock(answer));
      fs, pass := fs + [InLoop(Unblock(answer))], NoPass;
    }
  }

  /** The pass releases a record that is RUNNING although it has no task. */
  predicate ReleasesRunning(w: Answers, active: set<string>, issue: string, r: IssueState) {
    r.phase == Running && Waited(w, active, issue, r).phase == Released
  }

  /** `_reconcile_waiting`, of a record nobody else saves meanwhile. */
  lemma WaitingPassIsARun(s: System, w: Answers, active: set<string>, issue: string)
    returns (es: seq<Event>, pass: Pass)
    requires s.up && s.task.NoTask? && s.memory.None?
    ensures IsRun(s, s.(rec := Waited(w, active, issue, s.rec), pass := pass), es,
                  !ReleasesRunning(w, active, issue, s.rec))
  {
    pass := WaitingPass(s.rec);
    var t := s.(pass := pass);
    ExtendOrderly(s, s, [], true, LoadWaiting);
    es := [] + [InLoop(LoadWaiting)];
    if Waited(w, active, issue, s.rec) != s.rec {
      LoopThen(s, t, es, true, ReleaseWaiting);
      es, pass := es + [InLoop(ReleaseWaiting)], NoPass;
    }
  }

  lemma PlacingIsARun(s: System, t: System, es: seq<Event>, w: Answers, issue: Issue, prefix: string, now: real)
    returns (fs: seq<Event>)
    requires IsRun(s, t, es, true) && t.up && t.task.NoTask? && t.rec.phase != Running
    ensures IsRun(s, t.(rec := Examine(t.rec, issue, prefix, w, now).rec), fs,
                  !(ExecutorBlocked(t.rec) && Place(issue.labels, prefix, w.configured, w.home).None?))
  {
    fs := es;
    if Place(issue.labels, prefix, w.configured, w.home).None? {
      LoopThen(s, t, es, true, RefusePlacement);
      fs := es + [InLoop(RefusePlacement)];
    } else if t.rec.phase == Blocked && t.rec.lastOutcome == PlacementBlocked {
      ExtendOrderly(s, t, es, true, RestorePlacement);
      fs := es + [InLoop(RestorePlacement)];
    }
  }

  lemma ReleasedExamine(r: IssueState, w: Answers, issue: Issue, prefix: string, now: real)
    requires r.phase == Running && ReapOf(w, r) == Confirmed
    ensures Examine(r, issue, prefix, w, now)
            == Examine(StaleRunningReleased(Reaped(r, Confirmed)), issue, prefix, w, now)
  {}

  /** The dispatch loop of `tick` over one record. It lapses just when the
      labels of an issue with an unconfirmed executor name no usable target. */
  lemma ExamineIsARun(s: System, w: Answers, issue: Issue, prefix: string, now: real)
    returns (es: seq<Event>, pass: Pass)
    requires s.up && s.task.NoTask? && s.memory.None? && Truthful(s, w)
    ensures IsRun(s, s.(rec := Examine(s.rec, issue, prefix, w, now).rec, pass := pass), es,
                  !(ExecutorBlocked(s.rec) && Place(issue.labels, prefix, w.configured, w.home).None?))
  {
    if s.rec.phase != Running {
      pass := s.pass;
      es := PlacingIsARun(s, s, [], w, issue, prefix, now);
    } else {
      pass := NoPass;
      var t := s.(pass := StalePass(s.rec));
      ExtendOrderly(s, s, [], true, LoadStale);
      var reap := ReapOf(w, s.rec);
      TruthfulReap(t, w);
      if reap == Confirmed {
        ExtendOrderly(s, t, [] + [InLoop(LoadStale)], true, ReleaseStale);
        ReleasedExamine(s.rec, w, issue, prefix, now);
        es := PlacingIsARun(s, LoopStep(t, ReleaseStale), [] + [InLoop(LoadStale)] + [InLoop(ReleaseStale)], w, issue,
                            prefix, now);
      } else {
        ExtendOrderly(s, t, [] + [InLoop(LoadStale)], true, ReapStale(reap));
        es := [] + [InLoop(LoadStale)] + [InLoop(ReapStale(reap))];
      }
    }
  }

  /** What `recover` saves, cut after its first save or not. */
  lemma RecoveryIsARun(s: System, w: Answers, issue: string)
    requires !s.up && s.task.NoTask? && Truthful(s, w)
    ensures NeedsReap(s.rec) ==>
              IsRun(s, s.(rec := Halfway(w, s.rec)), [InLoop(RecoverReap(ReapOf(w, s.rec)))], true)
    ensures IsRun(s, s.(rec := Final(w, issue, s.rec), up := true),
                  [InLoop(ControlPlane.Recover(ReapOf(w, s.rec), TrackerSays(w, issue)))], true)
  {
    TruthfulReap(s, w);
    if NeedsReap(s.rec) {
      ExtendOrderly(s, s, [], true, RecoverReap(ReapOf(w, s.rec)));
      assert [] + [InLoop(RecoverReap(ReapOf(w, s.rec)))] == [InLoop(RecoverReap(ReapOf(w, s.rec)))];
    }
    var l := ControlPlane.Recover(ReapOf(w, s.rec), TrackerSays(w, issue));
    ExtendOrderly(s, s, [], true, l);
    assert [] + [InLoop(l)] == [InLoop(l)];
  }

  // ----- a whole tick

  lemma {:induction false} Concat(s: System, es: seq<Event>, fs: seq<Event>)
    ensures Exec(s, es + fs) == Exec(Exec(s, es), fs)
    ensures OrderlyRun(s, es + fs) <==> OrderlyRun(s, es) && OrderlyRun(Exec(s, es), fs)
  {
    if fs == [] {
      assert es + fs == es;
    } else {
      var n := |fs| - 1;
      Concat(s, es, fs[..n]);
      Then(s, es + fs[..n], fs[n]);
      assert es + fs == es + fs[..n] + [fs[n]];
    }
  }

  lemma ConcatRuns(s: System, t: System, u: System, es: seq<Event>, fs: seq<Event>, orderly: bool, orderly': bool)
    requires IsRun(s, t, es, orderly) && IsRun(t, u, fs, orderly')
    ensures IsRun(s, u, es + fs, orderly && orderly')
  {
    Concat(s, es, fs);
  }

  /** The passes before the dispatch loop.  They lapse just when a record that is RUNNING
      without a task belongs to an issue the tracker calls inactive. */
  lemma BeforeDispatchIsARun(s: System, w: Answers, active: set<string>, issue: string)
    returns (es: seq<Event>, pass: Pass)
    requires s.up && s.task.NoTask? && s.memory.None? && Truthful(s, w)
    ensures IsRun(s, s.(rec := BeforeDispatch(w, active, false, issue, s.rec), pass := pass), es,
                  !ReleasesRunning(w, active, issue, s.rec))
  {
    es, pass := BlockedPassIsARun(s, w, active, issue);
    var t := s.(rec := BlockedPassed(w, active, issue, s.rec), pass := pass);
    var fs;
    fs, pass := WaitingPassIsARun(t, w, active, issue);
    var u := t.(rec := Waited(w, active, issue, t.rec), pass := pass);
    var orderly := !ReleasesRunning(w, active, issue, s.rec);
    assert orderly == !ReleasesRunning(w, active, issue, t.rec);
    ConcatRuns(s, t, u, es, fs, true, orderly);
    es := es + fs;
    if issue in active && u.rec.phase == Released {
      LoopThen(s, u, es, orderly, Reactivate);
      es := es + [InLoop(Reactivate)];
    }
  }

  /** One tick, as an issue without a task sees it: everything the tick saves in its
      record, and its dispatch if there is one, is a run of the machine.  It lapses just
      when the record is released although it is RUNNING, or is blocked for its executor
      when its labels name no usable target. */
  lemma TickIsARun(s: System, w: Answers, active: set<string>, issue: Issue, prefix: string, now: real,
                   dispatched: bool)
    returns (t: System, es: seq<Event>)
    requires s.up && s.task.NoTask? && s.memory.None? && Truthful(s, w)
    requires dispatched ==> var v := Examine(BeforeDispatch(w, active, false, issue.id, s.rec), issue, prefix, w, now);
                            v.Offer? && v.target != ""
    ensures var r := BeforeDispatch(w, active, false, issue.id, s.rec);
            var v := Examine(r, issue, prefix, w, now);
            && IsRun(s, t, es, !ReleasesRunning(w, active, issue.id, s.rec)
                               && !(ExecutorBlocked(r) && Place(issue.labels, prefix, w.configured, w.home).None?))
            && t.attempts == s.attempts && t.up
            && (if dispatched then t.rec == Claimed(v.rec, v.target) && t.task == Dispatched(v.target)
                else t.rec == v.rec && t.task == NoTask)
  {
    var pass;
    es, pass := BeforeDispatchIsARun(s, w, active, issue.id);
    var r := BeforeDispatch(w, active, false, issue.id, s.rec);
    var u := s.(rec := r, pass := pass);
    var fs;
    fs, pass := ExamineIsARun(u, w, issue, prefix, now);
    var placed := !(ExecutorBlocked(r) && Place(issue.labels, prefix, w.configured, w.home).None?);
    var v := Examine(r, issue, prefix, w, now);
    t := u.(rec := v.rec, pass := pass);
    ConcatRuns(s, u, t, es, fs, !ReleasesRunning(w, active, issue.id, s.rec), placed);
    es := es + fs;
    if dispatched {
      es, t := DispatchExtends(s, t, es, !ReleasesRunning(w, active, issue.id, s.rec) && placed, v.target);
    }
  }

  lemma DispatchExtends(s: System, t: System, es: seq<Event>, orderly: bool, target: Target)
    returns (fs: seq<Event>, u: System)
    requires IsRun(s, t, es, orderly) && t.up && t.task.NoTask? && Dispatchable(t.rec.phase) && target != ""
    ensures IsRun(s, u, fs, orderly) && u.attempts == t.attempts && u.up
    ensures u.rec == Claimed(t.rec, target) && u.task == Dispatched(target)
  {
    Then(s, es, InStart(ControlPlane.Dispatch(target)));
    fs := es + [InStart(ControlPlane.Dispatch(target))];
    u := StartStep(t, ControlPlane.Dispatch(target));
  }

  // ----- the end of an attempt

  lemma FinishThen(s: System, t: System, es: seq<Event>, f: FinishEvent)
    requires IsRun(s, t, es, true) && FinishEnabled(t, f)
    ensures IsRun(s, FinishStep(t, f), es + [InFinish(f)], true)
  {
    Then(s, es, InFinish(f));
  }

  /** The attempt comes to an end of its own: cancelled before the launch, not spawned,
      or returned from the agent. */
  predicate Ends(s: System, e: Event) {
    Enabled(s, e) &&
    match e
    case InStart(LaunchCancelled(_)) => true
    case InStart(SpawnFailed) => true
    case InFinish(LocalReturn(_, _, _)) => true
    case InFinish(RemoteReturn(_)) => true
    case _ => false
  }

  /** The result `_finish_attempt` is given. */
  function EndResult(s: System, e: Event): AgentResult
    requires Ends(s, e)
  {
    match e
    case InStart(LaunchCancelled(summary)) => AgentResult(Cancelled, Own(s).session, summary, true)
    case InStart(SpawnFailed) => AgentResult(Failed, Own(s).session, "", true)
    case InFinish(LocalReturn(outcome, session, summary)) => AgentResult(outcome, session, summary, true)
    case InFinish(RemoteReturn(exit)) => RunResult(exit, Own(s).session)
  }

  lemma EndReports(s: System, u: System, e: Event)
    requires Ends(s, e) && u == Next(s, e)
    ensures !Lapse(s, e) && (s.task.Launching? || s.task.Executing?)
    ensures u == SafeReturn(s, s.task.id, s.task.mode, EndResult(s, e))
  {}

  lemma LastSave(s: System, u: System, e: Event, f: FinishEvent, answer: TrackerAnswer, config: Config, now: real)
    requires config.Valid() && Ends(s, e) && (s.task.Launching? || s.task.Executing?)
    requires u == SafeReturn(s, s.task.id, s.task.mode, EndResult(s, e))
    requires f == if u.task.Settling? then SettleUnsafe else Finish(answer, Schedule(u.rec, config, now))
    ensures FinishEnabled(u, f)
    ensures FinishStep(u, f).rec == AttemptFinished(Own(s), EndResult(s, e), s.task.mode, Own(s).totalAttempts + 1,
                                                    answer, config, now)
    ensures FinishStep(u, f).task == Ending && FinishStep(u, f).attempts == s.attempts
  {}

  /** `_finish_attempt`, after any end of an attempt: its first save is that of the end's
      own step, its last save is what the machine saves, and nothing lapses. */
  lemma EndIsARun(s: System, e: Event, answer: TrackerAnswer, config: Config, now: real)
    returns (u: System, t: System, es: seq<Event>)
    requires config.Valid() && Ends(s, e)
    ensures s.task.Launching? || s.task.Executing?
    ensures IsRun(s, u, [e], true)
    ensures EndResult(s, e).executorSafe ==> u.rec == ReportedSafe(Own(s), EndResult(s, e), Own(s).totalAttempts + 1)
    ensures IsRun(s, t, es, true) && t.task == Ending && t.attempts == s.attempts
    ensures t.rec == AttemptFinished(Own(s), EndResult(s, e), s.task.mode, Own(s).totalAttempts + 1, answer, config,
                                     now)
  {
    u := Next(s, e);
    EndReports(s, u, e);
    Then(s, [], e);
    assert [] + [e] == [e];
    var f := if u.task.Settling? then SettleUnsafe else Finish(answer, Schedule(u.rec, config, now));
    LastSave(s, u, e, f, answer, config, now);
    FinishThen(s, u, [e], f);
    es := [e] + [InFinish(f)];
    t := FinishStep(u, f);
  }

  /** What the exception handlers of `_execute` make of the task's record. */
  function HandlerRecord(s: System, confirmed: bool, config: Config, now: real): IssueState
    requires config.Valid() && s.task.Stopping?
  {
    if s.task.fault then TaskFailed(s.task.local, s.task.number, confirmed, Schedule(s.task.local, config, now).retryAt)
    else TaskCancelled(s.task.local, confirmed, now)
  }

  lemma HandlerStep(s: System, confirmed: bool, config: Config, now: real)
    requires config.Valid() && s.task.Stopping? && TaskReapAllowed(s, s.task.id, s.task.local, confirmed)
    ensures var e := Stopped(confirmed, Schedule(s.task.local, config, now));
            && FinishEnabled(s, e) && FinishStep(s, e).task == Ending && FinishStep(s, e).attempts == s.attempts
            && FinishStep(s, e).rec == HandlerRecord(s, confirmed, config, now)
    ensures FinishEnabled(s, HandlerDies) && FinishStep(s, HandlerDies).task == NoTask
    ensures FinishStep(s, HandlerDies).attempts == s.attempts && FinishStep(s, HandlerDies).rec == s.rec
  {}

  /** The exception handlers: what they save, if their reap answers, and that they save
      nothing if it does not, is a run of the machine without a lapse. */
  lemma HandlerIsARun(s: System, w: Answers, reapRaises: bool, config: Config, now: real)
    returns (t: System, e: FinishEvent)
    requires config.Valid() && s.task.Stopping? && s.task.id in s.attempts && Truthful(s, w)
    ensures IsRun(s, t, [InFinish(e)], true) && t.attempts == s.attempts
    ensures var confirmed := TargetReap(w, s.attempts[s.task.id].target, s.task.id, s.task.local.process);
            if reapRaises then t.task == NoTask && t.rec == s.rec
            else t.task == Ending && t.rec == HandlerRecord(s, confirmed, config, now)
  {
    var confirmed := TargetReap(w, s.attempts[s.task.id].target, s.task.id, s.task.local.process);
    TruthfulTaskReap(s, w, s.task.id, s.task.local);
    HandlerStep(s, confirmed, config, now);
    e := if reapRaises then HandlerDies else Stopped(confirmed, Schedule(s.task.local, config, now));
    t := FinishStep(s, e);
    assert IsRun(s, s, [], true) && [] + [InFinish(e)] == [InFinish(e)];
    FinishThen(s, s, [], e);
  }

  lemma TruthfulTaskReap(s: System, w: Answers, id: string, local: IssueState)
    requires Truthful(s, w) && id in s.attempts
    ensures TaskReapAllowed(s, id, local, TargetReap(w, s.attempts[id].target, id, local.process))
  {}
}
