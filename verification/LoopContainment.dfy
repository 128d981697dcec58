/** Containment is kept by every step of the polling loop and of a cold start. */
module LoopContainment {
  import opened Wrappers
  import opened IssueRecords
  import opened ControlPlane
  import opened Containment
  import R = RemoteAttempt

  // ----- the three situations a save of the loop can meet; `t` is the state after it

  /** Nothing runs and no task holds a record: any known record may be saved. */
  lemma QuietSave(s: System, t: System)
    requires Contained(s) && Quiescent(s) && !HoldsRecord(s.task)
    requires t == s.(rec := t.rec, pass := t.pass, late := t.late) && t.late <= s.late
    requires RecordKnown(t.rec, t.attempts) && (s.task.Dispatched? ==> t.rec.lastOutcome != PlacementBlocked)
    requires !t.pass.NoPass? ==>
               && !t.task.Dispatched? && RecordKnown(t.pass.copy, t.attempts)
               && (t.pass.StalePass? ==> t.pass.copy.phase == Running && t.task.NoTask?)
               && (t.pass.BlockedPass? && t.pass.reaped ==> ExecutorBlocked(t.pass.copy) && t.pass.copy.process.None?)
    ensures Contained(t)
  {
    assert Quiescent(t);
  }

  /** Nothing runs, and a task keeps its own record in memory: an earlier one may be saved. */
  lemma HeldSave(s: System, t: System)
    requires Contained(s) && Quiescent(s) && HoldsRecord(s.task) && !s.task.Spawned? && !AboutToRun(s)
    requires t == s.(rec := t.rec, memory := Some(Own(s)), pass := t.pass, late := t.late) && t.late <= s.late
    requires RecordKnown(t.rec, t.attempts) && EarlierThan(t.rec, Own(s).lastAttemptId, t.attempts)
    requires t.pass == s.pass || t.pass == NoPass || ReapedEarlier(t, Own(s).lastAttemptId)
    ensures Contained(t)
  {
    assert Quiescent(t) && Own(t) == Own(s);
    assert !AboutToRun(t);
  }

  /** The blocked pass has reaped an earlier attempt, and it was quiet. */
  predicate ReapedEarlier(t: System, current: Option<string>) {
    && t.pass.BlockedPass? && t.pass.reaped && ExecutorBlocked(t.pass.copy) && t.pass.copy.process.None?
    && EarlierThan(t.pass.copy, current, t.attempts)
    && Quiet(t.attempts[t.pass.copy.lastAttemptId.value].side)
  }

  /** An executor may run and has no task: the record saved must lead to it. */
  lemma TrackedSave(s: System, t: System)
    requires Contained(s) && !Quiescent(s) && !HoldsRecord(s.task) && !s.task.Dispatched?
    requires t == s.(rec := t.rec, pass := t.pass, late := t.late) && t.late <= s.late
    requires Tracks(t) && t.rec.lastAttemptId == s.rec.lastAttemptId && t.rec.lastOutcome != PlacementBlocked
    requires t.pass == s.pass || t.pass == NoPass
    ensures Contained(t)
  {
    assert !Quiescent(t);
  }

  // ----- loading

  lemma LoadContained(s: System, t: System, e: LoopEvent)
    requires Contained(s) && LoopEnabled(s, e) && (e.LoadBlocked? || e.LoadWaiting? || e.LoadStale?)
    requires t == LoopStep(s, e)
    ensures Contained(t)
  {
    LoadedFits(s, t);
    OnlyPassChanges(s, t);
  }

  /** The saved record, loaded by a pass that has reaped nothing yet. */
  lemma LoadedFits(s: System, t: System)
    requires Contained(s) && !s.task.Dispatched? && t == s.(pass := t.pass) && !t.pass.NoPass?
    requires t.pass.copy == s.rec && !(t.pass.BlockedPass? && t.pass.reaped)
    requires t.pass.StalePass? ==> s.rec.phase == Running && s.task.NoTask?
    ensures PassKnown(t)
  {
    assert Quiescent(s) <==> Quiescent(t);
    if t.pass.StalePass? && !Quiescent(s) {
      UpToDateTracks(s);
    }
  }

  lemma OnlyPassChanges(s: System, t: System)
    requires Contained(s) && t == s.(pass := t.pass) && PassKnown(t)
    ensures Contained(t)
  {
    assert Quiescent(s) <==> Quiescent(t);
  }

  // ----- the blocked pass

  lemma ReapBlockedContained(s: System, t: System, reap: Reap)
    requires Contained(s) && LoopEnabled(s, ReapBlocked(reap)) && !Hazard(s, InLoop(ReapBlocked(reap)))
    requires t == LoopStep(s, ReapBlocked(reap))
    ensures Contained(t)
  {
    var copy := s.pass.copy;
    if HoldsRecord(s.task) {
      assert EarlierThan(copy, Own(s).lastAttemptId, s.attempts);
      HeldReapContained(s, t, reap);
    } else {
      FreeReapContained(s, t, reap);
    }
  }

  lemma FreeReapContained(s: System, t: System, reap: Reap)
    requires Contained(s) && LoopEnabled(s, ReapBlocked(reap)) && !Hazard(s, InLoop(ReapBlocked(reap)))
    requires !HoldsRecord(s.task) && t == LoopStep(s, ReapBlocked(reap))
    ensures Contained(t)
  {
    if Quiescent(s) {
      QuietSave(s, t);
    } else {
      BlockedCopyTracks(s, reap);
      TrackedSave(s, t);
    }
  }

  /** While the executor may run, a reap that is no hazard has a copy that leads to it, and
      does not confirm. */
  lemma BlockedCopyTracks(s: System, reap: Reap)
    requires Contained(s) && LoopEnabled(s, ReapBlocked(reap)) && !Hazard(s, InLoop(ReapBlocked(reap)))
    requires !HoldsRecord(s.task) && !Quiescent(s)
    ensures StillTracks(s, s.pass.copy) && Leads(s.pass.copy, s.attempts) && reap != Confirmed
  {
    if !Outdated(s) {
      UpToDateTracks(s);
    }
    if reap == Confirmed {
      CopyReapProves(s, s.pass.copy);
    }
  }

  /** Without a task the saved record leads to the executor, and so does a copy that is up to date. */
  lemma UpToDateTracks(s: System)
    requires AttemptsOk(s.attempts, s.ssh) && Tracks(s) && !Quiescent(s) && !HoldsRecord(s.task)
    ensures StillTracks(s, s.rec)
    ensures !s.pass.NoPass? && !Outdated(s) ==> StillTracks(s, s.pass.copy)
  {
    var id := s.rec.lastAttemptId.value;
    assert AttemptOk(s.attempts, s.ssh, id);
    assert s.attempts[id].side == LocalSide(R.Live) || s.attempts[id].side.RemoteSide?;
  }

  lemma HeldReapContained(s: System, t: System, reap: Reap)
    requires Contained(s) && LoopEnabled(s, ReapBlocked(reap)) && !Hazard(s, InLoop(ReapBlocked(reap)))
    requires HoldsRecord(s.task) && EarlierThan(s.pass.copy, Own(s).lastAttemptId, s.attempts)
    requires t == LoopStep(s, ReapBlocked(reap))
    ensures Contained(t)
  {
    if reap == Confirmed {
      EarlierReapProves(s, s.pass.copy);
    }
    EarlierIsOutdated(s);
    HeldSave(s, t);
  }

  /** A copy of an earlier record is not the saved one, unless that has been overwritten. */
  lemma EarlierIsOutdated(s: System)
    requires Contained(s) && HoldsRecord(s.task) && !s.pass.NoPass?
    requires EarlierThan(s.pass.copy, Own(s).lastAttemptId, s.attempts)
    ensures s.memory.None? ==> Outdated(s)
    ensures s.memory.Some? && !s.task.Spawned? ==> Quiescent(s) && !AboutToRun(s)
  {}

  lemma UnblockContained(s: System, t: System, answer: TrackerAnswer)
    requires Contained(s) && LoopEnabled(s, Unblock(answer)) && !Hazard(s, InLoop(Unblock(answer)))
    requires t == LoopStep(s, Unblock(answer))
    ensures Contained(t)
  {
    if HoldsRecord(s.task) {
      EarlierIsOutdated(s);
      HeldSave(s, t);
    } else {
      UnblockIsQuiet(s, answer);
      QuietSave(s, t);
    }
  }

  lemma UnblockIsQuiet(s: System, answer: TrackerAnswer)
    requires Contained(s) && LoopEnabled(s, Unblock(answer)) && !Hazard(s, InLoop(Unblock(answer)))
    requires !HoldsRecord(s.task)
    ensures Quiescent(s)
  {}

  lemma ReleasePlacementContained(s: System, t: System)
    requires Contained(s) && LoopEnabled(s, ReleasePlacement) && t == LoopStep(s, ReleasePlacement)
    ensures Contained(t)
  {
    PlacementCopyIsQuiet(s);
    QuietSave(s, t);
  }

  lemma PlacementCopyIsQuiet(s: System)
    requires Contained(s) && LoopEnabled(s, ReleasePlacement)
    ensures Quiescent(s) && !HoldsRecord(s.task)
  {}

  // ----- the waiting pass and the dispatch loop

  lemma WaitingContained(s: System, t: System, e: LoopEvent)
    requires Contained(s) && LoopEnabled(s, e) && (e.RefreshWaiting? || e.ReleaseWaiting?)
    requires !Hazard(s, InLoop(e)) && t == LoopStep(s, e)
    ensures Contained(t)
  {
    if Quiescent(s) {
      QuietSave(s, t);
    } else {
      assert e.RefreshWaiting?;
      TrackedSave(s, t);
    }
  }

  lemma StaleContained(s: System, t: System, e: LoopEvent)
    requires Contained(s) && LoopEnabled(s, e) && (e.ReapStale? || e.ReleaseStale?) && t == LoopStep(s, e)
    ensures Contained(t)
  {
    if !Quiescent(s) {
      assert Leads(s.pass.copy, s.attempts);
      if e.ReleaseStale? || e.reap == Confirmed {
        CopyReapProves(s, s.pass.copy);
      }
    }
    if Quiescent(s) {
      QuietSave(s, t);
    } else {
      TrackedSave(s, t);
    }
  }

  /** The passes that work on the record as it is. */
  lemma PassContained(s: System, t: System, e: LoopEvent)
    requires Contained(s) && LoopEnabled(s, e) && !Hazard(s, InLoop(e)) && t == LoopStep(s, e)
    requires e.RefusePlacement? || e.RestorePlacement?
    ensures Contained(t)
  {
    QuietSave(s, t);
  }

  lemma ReactivateContained(s: System, t: System)
    requires Contained(s) && LoopEnabled(s, Reactivate) && t == LoopStep(s, Reactivate)
    ensures Contained(t)
  {
    if HoldsRecord(s.task) {
      assert s.memory.Some? && Quiescent(s) && !AboutToRun(s);
      HeldSave(s, t);
    } else {
      QuietSave(s, t);
    }
  }

  // ----- requests left behind

  /** A request left behind writes its record: harmless when nothing can run and nothing is
      about to, and when the record is of the attempt that can. */
  lemma LateStartContained(s: System, t: System, e: LoopEvent)
    requires Contained(s) && e.LateStart? && LoopEnabled(s, e) && !Hazard(s, InLoop(e)) && t == LoopStep(s, e)
    ensures Contained(t)
  {
    assert Earlier(e.held, s.attempts);
    if HoldsRecord(s.task) {
      LateIsLapse(s, e);
      HeldSave(s, t);
    } else if Quiescent(s) {
      QuietSave(s, t);
    } else {
      LateIsTracked(s, e);
      TrackedSave(s, t);
    }
  }

  lemma LateIsLapse(s: System, e: LoopEvent)
    requires Contained(s) && e.LateStart? && LoopEnabled(s, e) && !Hazard(s, InLoop(e)) && HoldsRecord(s.task)
    ensures Quiescent(s) && !AboutToRun(s) && e.held.lastAttemptId != Own(s).lastAttemptId
  {}

  lemma LateIsTracked(s: System, e: LoopEvent)
    requires Contained(s) && e.LateStart? && LoopEnabled(s, e) && !Hazard(s, InLoop(e))
    requires !HoldsRecord(s.task) && !Quiescent(s)
    ensures e.held.lastAttemptId == s.rec.lastAttemptId && HoldsBack(e.held)
  {
    assert Earlier(e.held, s.attempts);
  }

  // ----- death and cold start

  /** Without a process spawned and unrecorded, the record on disk says enough. */
  lemma CrashContained(s: System, t: System)
    requires Contained(s) && !Hazard(s, InLoop(Crash)) && t == LoopStep(s, Crash)
    ensures Contained(t)
  {
    assert Quiescent(s) <==> Quiescent(t);
    if !Quiescent(s) {
      assert s.task.Spawned? ==> OnLocal(s, s.task.id, R.Live);
      assert Tracks(t);
    }
  }

  lemma ColdReapContained(s: System, t: System, reap: Reap)
    requires Contained(s) && LoopEnabled(s, RecoverReap(reap)) && t == LoopStep(s, RecoverReap(reap))
    ensures Contained(t)
  {
    if reap == Confirmed {
      RecordReapProves(s);
    }
    if Quiescent(s) {
      QuietSave(s, t);
    } else {
      TrackedSave(s, t);
    }
  }

  lemma RecoverContained(s: System, t: System, reap: Reap, answer: TrackerAnswer)
    requires Contained(s) && LoopEnabled(s, Recover(reap, answer)) && t == LoopStep(s, Recover(reap, answer))
    ensures Contained(t)
  {
    if NeedsReap(s.rec) && reap == Confirmed {
      RecordReapProves(s);
    }
    var u := s.(up := true);
    OnlyUpChanges(s, u);
    if Quiescent(s) {
      QuietSave(u, t);
    } else {
      RecoveredTracks(s, t, reap, answer);
      TrackedSave(u, t);
    }
  }

  lemma OnlyUpChanges(s: System, u: System)
    requires Contained(s) && s.task.NoTask? && u == s.(up := true)
    ensures Contained(u) && (Quiescent(s) <==> Quiescent(u))
  {}

  lemma RecoveredTracks(s: System, t: System, reap: Reap, answer: TrackerAnswer)
    requires Contained(s) && !Quiescent(s) && LoopEnabled(s, Recover(reap, answer))
    requires t == LoopStep(s, Recover(reap, answer))
    requires reap != Confirmed
    ensures Tracks(t) && t.rec.lastAttemptId == s.rec.lastAttemptId && t.rec.lastOutcome != PlacementBlocked
  {
    assert NeedsReap(s.rec);
  }

  lemma BlockedContained(s: System, t: System, e: LoopEvent)
    requires Contained(s) && LoopEnabled(s, e) && !Hazard(s, InLoop(e)) && t == LoopStep(s, e)
    requires e.ReapBlocked? || e.Unblock? || e.ReleasePlacement?
    ensures Contained(t)
  {
    match e
    case ReapBlocked(reap) => ReapBlockedContained(s, t, reap);
    case Unblock(answer) => UnblockContained(s, t, answer);
    case ReleasePlacement => ReleasePlacementContained(s, t);
  }

  lemma ColdContained(s: System, t: System, e: LoopEvent)
    requires Contained(s) && LoopEnabled(s, e) && !Hazard(s, InLoop(e)) && t == LoopStep(s, e)
    requires e.Crash? || e.RecoverReap? || e.Recover?
    ensures Contained(t)
  {
    match e
    case Crash => CrashContained(s, t);
    case RecoverReap(reap) => ColdReapContained(s, t, reap);
    case Recover(reap, answer) => RecoverContained(s, t, reap, answer);
  }

  lemma LoopContained(s: System, t: System, e: LoopEvent)
    requires Contained(s) && LoopEnabled(s, e) && !Hazard(s, InLoop(e)) && t == LoopStep(s, e)
    ensures Contained(t)
  {
    if e.LoadBlocked? || e.LoadWaiting? || e.LoadStale? {
      LoadContained(s, t, e);
    } else if e.ReapBlocked? || e.Unblock? || e.ReleasePlacement? {
      BlockedContained(s, t, e);
    } else if e.RefreshWaiting? || e.ReleaseWaiting? {
      WaitingContained(s, t, e);
    } else if e.ReapStale? || e.ReleaseStale? {
      StaleContained(s, t, e);
    } else if e.Reactivate? {
      ReactivateContained(s, t);
    } else if e.LateStart? {
      LateStartContained(s, t, e);
    } else if e.RefusePlacement? || e.RestorePlacement? {
      PassContained(s, t, e);
    } else {
      ColdContained(s, t, e);
    }
  }
}
