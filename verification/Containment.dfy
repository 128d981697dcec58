/**
 What keeps an executor from being lost: at most one attempt can have an agent, and while it
 can, the record leads every reap to it.  Every step that is not a hazard keeps this, however
 untidy the record becomes once nothing can run any more.
 */
module Containment {
  import opened Wrappers
  import opened IssueRecords
  import opened ControlPlane
  import R = RemoteAttempt
  import RT = RemoteTheorems

  // ----- the attempts

  ghost predicate SideOk(side: Side, remote: bool) {
    (side.RemoteSide? <==> remote) && (side.RemoteSide? ==> R.Inv(side.protocol))
  }

  ghost predicate AttemptOk(attempts: map<string, Attempt>, ssh: set<Target>, id: string)
    requires id in attempts
  {
    id != "" && attempts[id].target != "" && SideOk(attempts[id].side, attempts[id].target in ssh)
  }

  ghost predicate AttemptsOk(attempts: map<string, Attempt>, ssh: set<Target>) {
    forall id :: id in attempts ==> AttemptOk(attempts, ssh, id)
  }

  // ----- a record against the attempts

  /** The target of the attempt, and evidence of no other process. */
  predicate Leads(r: IssueState, attempts: map<string, Attempt>) {
    && r.lastAttemptId.Some? && r.lastAttemptId.value in attempts
    && r.executionTarget == Some(attempts[r.lastAttemptId.value].target)
    && (r.process.Some? ==> r.process.value.attemptId == r.lastAttemptId.value
                            && Some(r.process.value.hostId) == r.executionTarget)
  }

  /** What holds of every record ever saved. */
  predicate RecordKnown(r: IssueState, attempts: map<string, Attempt>) {
    && (r.phase == Running ==> Leads(r, attempts))
    && (r.lastOutcome == PlacementBlocked ==> r.phase == Blocked)
  }

  predicate HoldsBack(r: IssueState) {
    r.phase == Running || ExecutorBlocked(r)
  }

  /** A record of an earlier attempt, held by a request left behind or derived from one: it
      leads to its attempt, which was launched, and holds it back unless it is quiet. */
  predicate Earlier(r: IssueState, attempts: map<string, Attempt>) {
    && Leads(r, attempts) && r.lastOutcome != PlacementBlocked
    && attempts[r.lastAttemptId.value].side.RemoteSide? && !Unlaunched(attempts[r.lastAttemptId.value].side)
    && (HoldsBack(r) || Quiet(attempts[r.lastAttemptId.value].side))
  }

  predicate EarlierThan(r: IssueState, current: Option<string>, attempts: map<string, Attempt>) {
    r.lastAttemptId != current && Earlier(r, attempts)
  }

  /** While a task holds a record its saved one is its own, or one of an earlier attempt. */
  predicate RecordsKnown(s: System) {
    && RecordKnown(s.rec, s.attempts)
    && (s.memory.Some? ==>
          && RecordKnown(s.memory.value, s.attempts) && HoldsRecord(s.task)
          && EarlierThan(s.rec, s.memory.value.lastAttemptId, s.attempts))
  }

  /** The requests left behind are of different attempts, all before the present one. */
  predicate LateKnown(s: System) {
    && (forall r | r in s.late :: Earlier(r, s.attempts))
    && (forall r, q | r in s.late && q in s.late && r.lastAttemptId == q.lastAttemptId :: r == q)
    && (HoldsRecord(s.task) ==> forall r | r in s.late :: r.lastAttemptId != Own(s).lastAttemptId)
  }

  /** The copy a pass holds, while a task is under way or an executor may run. */
  predicate CopyFits(s: System)
    requires !s.pass.NoPass?
  {
    var copy := s.pass.copy;
    if copy.lastAttemptId == Own(s).lastAttemptId then
      HoldsBack(copy) && Leads(copy, s.attempts) && (HoldsRecord(s.task) ==> copy.phase == Running)
      && !(s.pass.BlockedPass? && s.pass.reaped)
    else
      Earlier(copy, s.attempts)
      && (s.pass.BlockedPass? && s.pass.reaped ==> Quiet(s.attempts[copy.lastAttemptId.value].side))
  }

  predicate PassKnown(s: System) {
    !s.pass.NoPass? ==>
      && !s.task.Dispatched? && RecordKnown(s.pass.copy, s.attempts)
      && (s.pass.StalePass? ==> s.pass.copy.phase == Running && s.task.NoTask?
                                && (!Quiescent(s) ==> StillTracks(s, s.pass.copy)))
      && (s.pass.BlockedPass? && s.pass.reaped ==> ExecutorBlocked(s.pass.copy) && s.pass.copy.process.None?)
      && (HoldsRecord(s.task) || !Quiescent(s) ==> CopyFits(s))
  }

  predicate AllKnown(s: System) {
    RecordsKnown(s) && LateKnown(s) && PassKnown(s)
  }

  /** An executor may run: the record keeps the issue from being dispatched and leads to it. */
  predicate Tracks(s: System) {
    && (s.memory.None? || s.task.Spawned?)
    && HoldsBack(Own(s)) && Leads(Own(s), s.attempts)
    && (forall id | id in s.attempts && Own(s).lastAttemptId != Some(id) :: Quiet(s.attempts[id].side))
    && (s.attempts[Own(s).lastAttemptId.value].side == LocalSide(R.Live) ==> s.task.Spawned? || Own(s).process.Some?)
  }

  // ----- the task

  predicate SameEvidence(local: IssueState, r: IssueState) {
    && local.lastAttemptId == r.lastAttemptId && local.executionTarget == r.executionTarget
    && local.process == r.process && local.lastOutcome != PlacementBlocked
  }

  /** The record of the task of attempt `id`. */
  predicate Owns(s: System, id: string) {
    s.up && Own(s).phase == Running && Own(s).lastAttemptId == Some(id) && id in s.attempts
  }

  predicate NotLaunched(s: System, id: string) {
    Owns(s, id) && Unlaunched(s.attempts[id].side) && Own(s).process.None? && Quiescent(s)
  }

  predicate TaskFits(s: System) {
    match s.task
    case NoTask => true
    case Dispatched(target) => s.up && Quiescent(s) && target != "" && s.rec.lastOutcome != PlacementBlocked
    case Starting(id) => NotLaunched(s, id)
    case Preparing(id) => NotLaunched(s, id)
    case Launching(id, _) =>
      NotLaunched(s, id) && (s.memory.Some? ==> !AboutToRun(s))
      && (OnSsh(s, id) ==> s.attempts[id].side.protocol.prepare == R.PrepareAnswered(true))
    case Spawned(id, _, identity) =>
      Owns(s, id) && s.attempts[id].side.LocalSide? && !Unlaunched(s.attempts[id].side) && Own(s).process.None?
      && identity.attemptId == id && identity.hostId == s.attempts[id].target
    case Executing(id, _) => Owns(s, id) && !Unlaunched(s.attempts[id].side)
    case Finishing(id, _, _) => Owns(s, id) && Quiescent(s)
    case Settling(id, local) => Owns(s, id) && SameEvidence(local, Own(s)) && ExecutorBlocked(local)
    case Stopping(id, local, _, _, unsettled) =>
      Owns(s, id) && SameEvidence(local, Own(s))
      && (unsettled ==> OnSsh(s, id) && !Unlaunched(s.attempts[id].side) && local.phase == Running)
    case Ending => s.up
  }

  ghost predicate Contained(s: System) {
    AttemptsOk(s.attempts, s.ssh) && AllKnown(s) && (Quiescent(s) || Tracks(s)) && TaskFits(s)
  }

  lemma InitContained(ssh: set<Target>, home: Target)
    ensures Contained(Init(ssh, home))
  {}

  // ----- every stop proof

  /** A confirmed reap, sent with the data of a record that still tracks, proves that the executor stopped. */
  lemma CopyReapProves(s: System, r: IssueState)
    requires Contained(s) && !s.task.Spawned? && ReapAllowed(s, r, Confirmed)
    requires !Quiescent(s) ==> StillTracks(s, r) && Leads(r, s.attempts)
    ensures Quiescent(s)
  {
    if !Quiescent(s) {
      var id := Own(s).lastAttemptId.value;
      assert AttemptOk(s.attempts, s.ssh, id);
      assert ReapAttempt(r) == Some(id) && ReapTarget(r, s.home) == s.attempts[id].target;
      if s.attempts[id].side.RemoteSide? {
        RT.ConfirmedIsQuiet(s.attempts[id].side.protocol);
      }
    }
  }

  /** A confirmed reap, sent with the saved record's own data, proves that the executor stopped. */
  lemma RecordReapProves(s: System)
    requires Contained(s) && !s.task.Spawned? && RecordReapAllowed(s, Confirmed)
    ensures Quiescent(s)
  {
    if !Quiescent(s) {
      assert AttemptOk(s.attempts, s.ssh, s.rec.lastAttemptId.value);
      CopyReapProves(s, s.rec);
    }
  }

  /** A confirmed reap with the data of an earlier record proves that the earlier attempt stopped. */
  lemma EarlierReapProves(s: System, r: IssueState)
    requires AttemptsOk(s.attempts, s.ssh) && Earlier(r, s.attempts) && ReapAllowed(s, r, Confirmed)
    ensures Quiet(s.attempts[r.lastAttemptId.value].side)
  {
    var id := r.lastAttemptId.value;
    assert AttemptOk(s.attempts, s.ssh, id);
    assert ReapAttempt(r) == Some(id) && ReapTarget(r, s.home) == s.attempts[id].target;
    RT.ConfirmedIsQuiet(s.attempts[id].side.protocol);
  }

  /** The same for the reap of an exception handler, with the record in the task's memory. */
  lemma TaskReapProves(s: System, id: string, local: IssueState)
    requires Contained(s) && s.task.Stopping? && s.task.id == id && s.task.local == local
    requires TaskReapAllowed(s, id, local, true)
    ensures Quiescent(s)
  {
    assert AttemptOk(s.attempts, s.ssh, id);
    if s.attempts[id].side.RemoteSide? {
      RT.ConfirmedIsQuiet(s.attempts[id].side.protocol);
    }
  }

  /** `SSHAgentBackend.run` claims `executor_safe` only with proof. */
  lemma RunExitProves(p: R.Attempt, t: Target, exit: RunExit, session: Option<Session>)
    requires R.Inv(p) && ExitAllowed(p, t, exit) && RunResult(exit, session).executorSafe
    ensures !R.CanStillRun(p)
  {
    if R.Confirmed(p) {
      RT.ConfirmedIsQuiet(p);
    }
  }

  // ----- steps on the targets; `t` is the state after the step

  /** What a protocol step does to one attempt. */
  lemma SideAfterStep(p: R.Attempt, q: R.Attempt, e: R.Event)
    requires R.Inv(p) && !R.Hazard(p, e) && !e.SendRun? && q == R.Next(p, e)
    ensures R.Inv(q) && (!R.CanStillRun(p) ==> !R.CanStillRun(q))
    ensures p.runner.RunUnsent? == q.runner.RunUnsent? && (p.tombstone ==> q.tombstone)
    ensures p.prepare == R.PrepareAnswered(true) ==> q.prepare == p.prepare
  {
    R.StepKeepsInv(p, e);
    if !R.CanStillRun(p) {
      RT.QuietPersists(p, e);
    }
  }

  /** An unsafe crash of a helper concerns a live agent. */
  lemma UnsafeCrashIsHazard(s: System, id: string, e: R.Event)
    requires Contained(s) && TargetEnabled(s, HostStep(id, e)) && R.Hazard(s.attempts[id].side.protocol, e)
    ensures !Quiescent(s) && Own(s).lastAttemptId == Some(id)
  {
    assert !Quiet(s.attempts[id].side);
  }

  lemma HostStepContained(s: System, t: System, id: string, e: R.Event)
    requires Contained(s) && TargetEnabled(s, HostStep(id, e)) && !Hazard(s, OnTarget(HostStep(id, e)))
    requires t == TargetStep(s, HostStep(id, e))
    ensures Contained(t)
  {
    var p := s.attempts[id].side.protocol;
    var q := R.Next(p, e);
    if R.Hazard(p, e) {
      UnsafeCrashIsHazard(s, id, e);
    }
    assert AttemptOk(s.attempts, s.ssh, id);
    SideAfterStep(p, q, e);
    ReplacedSideContained(s, t, id, RemoteSide(q));
  }

  /** The new side of an attempt is no more of a danger than the old one. */
  ghost predicate Tamer(old0: Side, new0: Side) {
    && old0.RemoteSide? == new0.RemoteSide? && Unlaunched(old0) == Unlaunched(new0)
    && (Quiet(old0) ==> Quiet(new0)) && (new0 == LocalSide(R.Live) ==> old0 == new0)
    && (old0.RemoteSide? && old0.protocol.tombstone ==> new0.protocol.tombstone)
    && (old0.RemoteSide? && old0.protocol.prepare == R.PrepareAnswered(true) ==>
          new0.protocol.prepare == old0.protocol.prepare)
  }

  lemma KnownStays(s: System, t: System)
    requires AllKnown(s) && t.rec == s.rec && t.pass == s.pass && t.memory == s.memory && t.late == s.late
    requires (HoldsRecord(s.task) <==> HoldsRecord(t.task)) && (s.task.Dispatched? <==> t.task.Dispatched?)
    requires (s.task.NoTask? ==> t.task.NoTask?) && t.ssh == s.ssh
    requires HoldsRecord(s.task) || (Quiescent(s) ==> Quiescent(t))
    requires forall i | i in s.attempts :: i in t.attempts && t.attempts[i].target == s.attempts[i].target
                                           && (s.attempts[i].side.RemoteSide? ==> t.attempts[i].side.RemoteSide?)
                                           && (!Unlaunched(s.attempts[i].side) ==>
                                                 !Unlaunched(t.attempts[i].side)
                                                 && (Quiet(s.attempts[i].side) ==> Quiet(t.attempts[i].side)))
    ensures AllKnown(t)
  {
    assert RecordsKnown(t);
    forall r | r in t.late
      ensures Earlier(r, t.attempts)
    {
      assert Earlier(r, s.attempts);
    }
  }

  lemma ReplacedSideContained(s: System, t: System, id: string, side: Side)
    requires Contained(s) && id in s.attempts && t == WithSide(s, id, side)
    requires SideOk(side, s.attempts[id].target in s.ssh) && Tamer(s.attempts[id].side, side)
    ensures Contained(t)
  {
    QuiescentStays(s, t, id);
    KnownStays(s, t);
    forall i | i in t.attempts
      ensures AttemptOk(t.attempts, t.ssh, i)
    {
      assert AttemptOk(s.attempts, s.ssh, i);
    }
    TaskFitsTamer(s, t, id, side);
    if !Quiescent(s) {
      TracksTamer(s, t, id, side);
    }
  }

  lemma TracksTamer(s: System, t: System, id: string, side: Side)
    requires Tracks(s) && id in s.attempts && t == WithSide(s, id, side) && Tamer(s.attempts[id].side, side)
    ensures Tracks(t)
  {}

  lemma QuiescentStays(s: System, t: System, id: string)
    requires id in s.attempts && id in t.attempts && t.attempts == s.attempts[id := t.attempts[id]]
    requires Quiet(s.attempts[id].side) ==> Quiet(t.attempts[id].side)
    ensures Quiescent(s) ==> Quiescent(t)
  {}

  lemma TaskFitsTamer(s: System, t: System, id: string, side: Side)
    requires TaskFits(s) && id in s.attempts && t == WithSide(s, id, side) && Tamer(s.attempts[id].side, side)
    requires Quiescent(s) ==> Quiescent(t)
    ensures TaskFits(t)
  {}

  lemma LocalExitContained(s: System, t: System, id: string)
    requires Contained(s) && TargetEnabled(s, LocalExit(id)) && t == TargetStep(s, LocalExit(id))
    ensures Contained(t)
  {
    assert AttemptOk(s.attempts, s.ssh, id);
    ReplacedSideContained(s, t, id, LocalSide(R.Exited));
  }
}
