/** No attempt is counted twice, in any run whatever: lapses and hazards included. */
module AttemptCount {
  import opened Wrappers
  import opened IssueRecords
  import opened ControlPlane

  /** At most `n` attempts are counted in every record anybody holds. */
  predicate RecordsCount(s: System, n: nat) {
    && s.rec.totalAttempts <= n && (s.memory.Some? ==> s.memory.value.totalAttempts <= n)
    && (!s.pass.NoPass? ==> s.pass.copy.totalAttempts <= n)
    && forall r | r in s.late :: r.totalAttempts <= n
  }

  /** The attempt of the task is not counted yet, or is the last one counted. */
  predicate TaskCounts(s: System, n: nat) {
    match s.task
    case Starting(_) => Own(s).totalAttempts < n
    case Preparing(_) => Own(s).totalAttempts < n
    case Launching(_, _) => Own(s).totalAttempts < n
    case Spawned(_, _, _) => Own(s).totalAttempts < n
    case Executing(_, _) => Own(s).totalAttempts < n
    case Settling(_, local) => local.totalAttempts <= n
    case Stopping(_, local, number, _, _) => local.totalAttempts <= n && number <= n
    case _ => true
  }

  predicate Counts(s: System) {
    RecordsCount(s, |s.attempts|) && TaskCounts(s, |s.attempts|)
  }

  lemma CountsOnTarget(s: System, t: System, e: TargetEvent)
    requires Counts(s) && TargetEnabled(s, e) && t == TargetStep(s, e)
    ensures Counts(t)
  {
    assert t.attempts.Keys == s.attempts.Keys;
    assert |t.attempts| == |t.attempts.Keys| && |s.attempts| == |s.attempts.Keys|;
  }

  lemma CountsWhenReported(s: System, t: System, id: string, mode: Mode, result: AgentResult)
    requires Counts(s) && Own(s).totalAttempts < |s.attempts| && t == SafeReturn(s, id, mode, result)
    ensures Counts(t)
  {
    assert t.attempts == s.attempts;
  }

  /** Every record known before counts fewer attempts than there are now. */
  lemma CountsInBegin(s: System, t: System, id: string)
    requires Counts(s) && StartEnabled(s, Begin(id)) && t == StartStep(s, Begin(id))
    ensures Counts(t)
  {
    assert t.attempts.Keys == s.attempts.Keys + {id};
    assert |t.attempts| == |t.attempts.Keys| && |s.attempts| == |s.attempts.Keys|;
  }

  lemma CountsInSend(s: System, t: System, e: StartEvent)
    requires Counts(s) && StartEnabled(s, e) && (e.SendPrepare? || e.SendRun? || e.SpawnLocal?) && t == StartStep(s, e)
    ensures Counts(t)
  {
    assert t.attempts.Keys == s.attempts.Keys;
    assert |t.attempts| == |t.attempts.Keys| && |s.attempts| == |s.attempts.Keys|;
  }

  lemma CountsInStart(s: System, t: System, e: StartEvent)
    requires Counts(s) && StartEnabled(s, e) && t == StartStep(s, e)
    ensures Counts(t)
  {
    match e
    case Begin(id) => CountsInBegin(s, t, id);
    case SendPrepare => CountsInSend(s, t, e);
    case SendRun => CountsInSend(s, t, e);
    case SpawnLocal(_, _) => CountsInSend(s, t, e);
    case LaunchCancelled(summary) =>
      CountsWhenReported(s, t, s.task.id, s.task.mode, AgentResult(Cancelled, Own(s).session, summary, true));
    case SpawnFailed =>
      CountsWhenReported(s, t, s.task.id, s.task.mode, AgentResult(Failed, Own(s).session, "", true));
    case _ => assert t.attempts == s.attempts;
  }

  lemma FinishedCounts(r: IssueState, f: IssueState, result: AgentResult, mode: Mode, answer: TrackerAnswer, t: Times)
    requires f == Finished(r, result, mode, answer, t)
    ensures f.totalAttempts == r.totalAttempts
  {}

  lemma CountsInLastSave(s: System, t: System, e: FinishEvent)
    requires Counts(s) && FinishEnabled(s, e) && (e.Finish? || e.Stopped? || e.HandlerDies?) && t == FinishStep(s, e)
    ensures Counts(t)
  {
    assert t.attempts == s.attempts;
    if e.Finish? {
      FinishedCounts(Own(s), t.rec, s.task.result, s.task.mode, e.answer, e.times);
    }
  }

  lemma CountsInReturn(s: System, t: System, e: FinishEvent)
    requires Counts(s) && FinishEnabled(s, e) && (e.RemoteReturn? || e.LocalReturn?) && t == FinishStep(s, e)
    ensures Counts(t)
  {
    var result := if e.RemoteReturn? then RunResult(e.exit, Own(s).session)
                  else AgentResult(e.outcome, e.session, e.summary, true);
    CountsWhenReported(s, t, s.task.id, s.task.mode, result);
  }

  lemma CountsInInterrupt(s: System, t: System, e: FinishEvent)
    requires Counts(s) && e.Interrupt? && FinishEnabled(s, e) && t == FinishStep(s, e)
    ensures Counts(t)
  {
    HandlerCounts(s, t, e);
    assert RecordsCount(t, |t.attempts|);
  }

  lemma HandlerCounts(s: System, t: System, e: FinishEvent)
    requires TaskCounts(s, |s.attempts|) && RecordsCount(s, |s.attempts|)
    requires e.Interrupt? && FinishEnabled(s, e) && t == FinishStep(s, e)
    ensures t == s.(task := t.task, memory := t.memory) && (t.memory == s.memory || t.memory == None)
    ensures TaskCounts(t, |s.attempts|)
  {}

  lemma CountsInFinish(s: System, t: System, e: FinishEvent)
    requires Counts(s) && FinishEnabled(s, e) && t == FinishStep(s, e)
    ensures Counts(t)
  {
    if e.Finish? || e.Stopped? || e.HandlerDies? {
      CountsInLastSave(s, t, e);
    } else if e.RemoteReturn? || e.LocalReturn? {
      CountsInReturn(s, t, e);
    } else if e.Interrupt? {
      CountsInInterrupt(s, t, e);
    } else {
      assert t.attempts == s.attempts;
    }
  }

  /** Somebody else's save leaves the task its own record. */
  lemma CountsWhenOverwritten(s: System, t: System, r: IssueState)
    requires Counts(s) && r.totalAttempts <= |s.attempts|
    requires t == Overwritten(s, r).(pass := t.pass, late := t.late) && t.late <= s.late
    requires t.pass.NoPass? || t.pass.copy.totalAttempts <= |s.attempts|
    ensures Counts(t)
  {
    assert HoldsRecord(s.task) ==> Own(t) == Own(s);
  }

  lemma CountsInPass(s: System, t: System, e: LoopEvent)
    requires Counts(s) && LoopEnabled(s, e) && t == LoopStep(s, e)
    requires e.ReapBlocked? || e.Unblock? || e.ReleasePlacement? || e.RefreshWaiting? || e.ReleaseWaiting?
             || e.ReapStale? || e.ReleaseStale? || e.LateStart?
    ensures Counts(t)
  {
    CountsWhenOverwritten(s, t, t.rec);
  }

  lemma CountsInLoop(s: System, t: System, e: LoopEvent)
    requires Counts(s) && LoopEnabled(s, e) && t == LoopStep(s, e)
    ensures Counts(t)
  {
    if e.LoadBlocked? || e.LoadWaiting? || e.LoadStale? || e.Crash? {
      assert t.rec == s.rec && t.attempts == s.attempts;
    } else if e.Reactivate? || e.RefusePlacement? || e.RestorePlacement? || e.RecoverReap? || e.Recover? {
      assert t == s.(rec := t.rec, up := t.up) && t.rec.totalAttempts == s.rec.totalAttempts;
    } else {
      CountsInPass(s, t, e);
    }
  }

  lemma CountsStay(s: System, e: Event)
    requires Counts(s)
    ensures Counts(Next(s, e))
  {
    if Enabled(s, e) {
      var t := Next(s, e);
      match e
      case OnTarget(te) => CountsOnTarget(s, t, te);
      case InStart(b) => CountsInStart(s, t, b);
      case InFinish(f) => CountsInFinish(s, t, f);
      case InLoop(l) => CountsInLoop(s, t, l);
    }
  }

  lemma {:induction false} CountsForever(s: System, es: seq<Event>)
    requires Counts(s)
    ensures Counts(Exec(s, es))
  {
    if es != [] {
      CountsForever(s, es[..|es| - 1]);
      CountsStay(Exec(s, es[..|es| - 1]), es[|es| - 1]);
    }
  }

  /** The record never counts more attempts than were started. */
  lemma AttemptsAreCountedOnce(ssh: set<Target>, home: Target, es: seq<Event>)
    ensures Exec(Init(ssh, home), es).rec.totalAttempts <= |Exec(Init(ssh, home), es).attempts|
  {
    CountsForever(Init(ssh, home), es);
  }
}
