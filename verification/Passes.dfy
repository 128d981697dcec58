/** What one pass of the polling loop makes of one record, as functions of the record. */
module Passes {
  import opened Wrappers
  import opened IssueRecords
  import opened Placement
  import opened Recovery

  /** What the dispatcher finds when it looks at a candidate. */
  datatype Verdict =
    | Skip(rec: IssueState)
    | Offer(rec: IssueState, target: Target)   // may run now on `target`, capacity permitting

  /** The dispatch loop of `tick` up to the capacity checks. */
  function Examine(r: IssueState, issue: Issue, prefix: string, w: Answers, now: real): Verdict {
    if r.phase == Running && ReapOf(w, r) != Confirmed then Skip(Reaped(r, ReapOf(w, r)))
    else
      var r1 := if r.phase == Running then StaleRunningReleased(Reaped(r, Confirmed)) else r;
      match Place(issue.labels, prefix, w.configured, w.home)
      case None => Skip(PlacementRefused(r1))
      case Some(t) =>
        if r1.phase == Blocked && r1.lastOutcome != PlacementBlocked then Skip(r1)
        else
          var r2 := if r1.phase == Blocked then PlacementRestored(r1) else r1;
          if Dispatchable(r2.phase) && Due(r2, now) then Offer(r2, t) else Skip(r2)
  }

  /** `_reconcile_waiting` for one record that has no task. */
  function Waited(w: Answers, active: set<string>, issue: string, r: IssueState): IssueState {
    if r.phase == Released || r.phase == Blocked || issue in active then r
    else match TrackerSays(w, issue)
         case TrackerFailed => r
         case Found(disposition) => if disposition == Active then r else WaitingReleased(r)
  }

  /** What `_reconcile_blocked` learns about an issue. */
  function BlockedAnswer(w: Answers, active: set<string>, issue: string): TrackerAnswer {
    if issue in active then Found(Active) else TrackerSays(w, issue)
  }

  /** `_reconcile_blocked` for one record. */
  function BlockedPassed(w: Answers, active: set<string>, issue: string, r: IssueState): IssueState {
    if r.phase != Blocked then r
    else if r.lastOutcome == PlacementBlocked then
      match BlockedAnswer(w, active, issue)
      case TrackerFailed => r
      case Found(disposition) => if disposition == Active then r else PlacementBlockReleasedByTracker(r)
    else if ReapOf(w, r) != Confirmed then Reaped(r, ReapOf(w, r))
    else Unblocked(Reaped(r, Confirmed), BlockedAnswer(w, active, issue))
  }

  /** The reactivation loop of `tick` for the record of a listed issue. */
  function Woken(r: IssueState): IssueState {
    if r.phase == Released then Reactivated(r) else r
  }

  /** What the passes before the dispatch loop make of the record of issue `i`. */
  function BeforeDispatch(w: Answers, active: set<string>, hasTask: bool, i: string, r: IssueState): IssueState {
    var b := BlockedPassed(w, active, i, r);
    var v := if hasTask then b else Waited(w, active, i, b);
    if i in active then Woken(v) else v
  }

  // ----- what the passes mean

  /** May the issue be dispatched to `t` now?  Its labels lead there; and its record is READY or
      waiting, or blocked for its labels only, with no timer left to run, or it is RUNNING
      without a task and its executor is proved to have stopped. */
  predicate MayRun(r: IssueState, issue: Issue, prefix: string, w: Answers, now: real, t: Target) {
    && Place(issue.labels, prefix, w.configured, w.home) == Some(t)
    && if r.phase == Running then ReapOf(w, r) == Confirmed
       else
         && (|| r.phase == Ready || r.phase == ContinuationWait || r.phase == RetryWait
             || (r.phase == Blocked && r.lastOutcome == PlacementBlocked))
         && (r.nextRunAt.Some? ==> r.nextRunAt.value <= now)
  }

  /** The dispatcher offers exactly the targets where the issue may run. */
  lemma OfferMeans(r: IssueState, issue: Issue, prefix: string, w: Answers, now: real, t: Target)
    ensures var v := Examine(r, issue, prefix, w, now);
            v.Offer? && v.target == t <==> MayRun(r, issue, prefix, w, now, t)
  {}

  /** What the dispatcher leaves on disk: a stop that was not proved blocks the record, and so
      do labels that lead nowhere; a block for the labels ends when they lead somewhere. */
  lemma ExamineMeans(r: IssueState, issue: Issue, prefix: string, w: Answers, now: real)
    ensures var f := Examine(r, issue, prefix, w, now).rec;
            var unproved := r.phase == Running && ReapOf(w, r) != Confirmed;
            var placed := Place(issue.labels, prefix, w.configured, w.home).Some?;
            && f.phase == (if unproved || !placed then Blocked
                           else if r.phase == Running then Ready
                           else if r.phase == Blocked && r.lastOutcome == PlacementBlocked then Ready
                           else r.phase)
            && (!unproved && !placed ==> f.lastOutcome == PlacementBlocked && f.nextRunAt == None)
            && f.process == (if r.phase == Running && !unproved then None else r.process)
            && f.failureCount == r.failureCount && f.continuationIndex == r.continuationIndex
            && f.session == r.session && f.lastAttemptId == r.lastAttemptId && f.executionTarget == r.executionTarget
  {}

  /** The passes before the dispatch loop: an executor block ends only by a confirmed reap;
      what the tracker calls inactive is released, unless it has a task; a released issue that
      is listed is ready again. */
  lemma BeforeDispatchMeans(w: Answers, active: set<string>, hasTask: bool, i: string, r: IssueState)
    ensures var f := BeforeDispatch(w, active, hasTask, i, r);
            var inactive := i !in active && Inactive(TrackerSays(w, i));
            var freed := ExecutorBlocked(r) && ReapOf(w, r) == Confirmed;
            && f.phase == (if ExecutorBlocked(r) && !freed then Blocked
                           else if inactive && (!hasTask || r.phase == Blocked) then Released
                           else if freed || (r.phase == Released && i in active) then Ready
                           else r.phase)
            && f.process == (if freed || (f.phase == Released && r.phase != Released && r.phase != Blocked) then None
                             else r.process)
            && f.failureCount == r.failureCount && f.continuationIndex == r.continuationIndex
            && f.session == r.session && f.lastAttemptId == r.lastAttemptId && f.executionTarget == r.executionTarget
  {}

  /** A task is left alone just when the tracker cannot be asked, or calls the issue active
      and its labels still lead to where it runs. */
  lemma CancelDecisionMeans(answer: TrackerAnswer, placed: Option<Target>, runsOn: Target)
    ensures var why := CancelDecision(answer, placed, runsOn);
            && (why == None <==> answer == TrackerFailed || (answer == Found(Active) && placed == Some(runsOn)))
            && (forall d :: why == Some(TrackerSaid(d)) <==> answer == Found(d) && Inactive(answer))
            && (why == Some(PlacementInvalid) <==> answer == Found(Active) && placed == None)
            && why != Some(Shutdown)
  {}

  /** A claim for target `t`: what belongs to another target is given up. */
  lemma ClaimMeans(r: IssueState, t: Target)
    ensures var f := Claimed(r, t);
            var moved := r.executionTarget != None && r.executionTarget != Some("") && r.executionTarget != Some(t);
            && f.executionTarget == Some(t) && f.phase == r.phase && f.failureCount == r.failureCount
            && f.session == (if moved then None else r.session)
            && f.workspacePath == (if moved then None else r.workspacePath)
            && f.continuationIndex == (if moved then 0 else r.continuationIndex)
            && f.totalAttempts == r.totalAttempts && f.lastAttemptId == r.lastAttemptId && f.process == r.process
  {}

  /** Why `_reconcile_running` cancels a task, if it does. */
  datatype CancelReason = TrackerSaid(disposition: Disposition) | PlacementInvalid | TargetChanged | Shutdown

  function CancelDecision(answer: TrackerAnswer, placed: Option<Target>, runsOn: Target): Option<CancelReason> {
    match answer
    case TrackerFailed => None
    case Found(disposition) =>
      if disposition != Active then Some(TrackerSaid(disposition))
      else match placed
           case None => Some(PlacementInvalid)
           case Some(t) => if t == runsOn then None else Some(TargetChanged)
  }
}
