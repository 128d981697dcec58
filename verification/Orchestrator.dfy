/**
 The scheduler object, with the records on disk and the running map it updates.
 The tracker, the execution targets and the clock are parameters; each method runs
 without interference, as the passes of the loop are modelled.
 */
module Orchestrator {
  import opened Wrappers
  import opened IssueRecords
  import opened Timing
  import opened Placement
  import opened Recovery
  import opened Passes

  datatype RunningEntry = RunningEntry(target: Target, cancelReason: Option<CancelReason>)

  /** The issues running on target `t`. */
  function On(running: map<string, RunningEntry>, t: Target): set<string> {
    set i | i in running && running[i].target == t
  }

  lemma OnAfter(running: map<string, RunningEntry>, i: string, e: RunningEntry, t: Target)
    requires i !in running
    ensures |On(running[i := e], t)| == |On(running, t)| + if e.target == t then 1 else 0
  {
    var after := running[i := e];
    if e.target == t {
      assert On(after, t) == On(running, t) + {i};
    } else {
      assert On(after, t) == On(running, t);
    }
  }

  lemma OnWithout(before: map<string, RunningEntry>, after: map<string, RunningEntry>, i: string, t: Target)
    requires after == before - {i}
    ensures |On(after, t)| == |On(before, t)| - if i in before && before[i].target == t then 1 else 0
  {
    if i in before {
      OnAfter(after, i, before[i], t);
      assert after[i := before[i]] == before;
    } else {
      assert after == before;
    }
  }

  class Orchestrator {
    const config: Config
    const maxConcurrent: int
    const caps: map<Target, int>
    const labelPrefix: string
    const home: Target

    var records: map<string, IssueState>
    var running: map<string, RunningEntry>

    constructor (config: Config, maxConcurrent: int, caps: map<Target, int>, labelPrefix: string, home: Target)
      requires config.Valid() && 0 < maxConcurrent && home in caps && forall t | t in caps :: 0 < caps[t]
      ensures WithinCaps() && records == map[] && running == map[]
      ensures this.config == config && this.maxConcurrent == maxConcurrent && this.caps == caps
      ensures this.labelPrefix == labelPrefix && this.home == home
    {
      this.config, this.maxConcurrent, this.caps := config, maxConcurrent, caps;
      this.labelPrefix, this.home := labelPrefix, home;
      records, running := map[], map[];
    }

    /** The caps of `max_concurrent_agents`, overall and for each target. */
    ghost predicate WithinCaps()
      reads this
    {
      && config.Valid() && |running| <= maxConcurrent
      && forall t :: t in caps ==> |On(running, t)| <= caps[t]
    }

    /** `StateStore.for_issue`: a record of a new issue is made on first sight. */
    function Rec(issue: string): IssueState
      reads this
    {
      RecordOf(records, issue)
    }

    // ----- reaping and recovery

    method ReapState(issue: string, local: IssueState, w: Answers) returns (reaped: IssueState, safe: bool)
      modifies this`records
      ensures reaped == Reaped(local, ReapOf(w, local)) && safe == (ReapOf(w, local) == Confirmed)
      ensures records == old(records)[issue := reaped]
    {
      var attempt := ReapAttempt(local);
      var t := ReapTarget(local, w.home);
      if attempt.None? || t !in w.configured {
        reaped, safe := local.(phase := Blocked), false;
      } else if TargetReap(w, t, attempt.value, local.process) {
        reaped, safe := local.(process := None), true;
      } else {
        reaped, safe := local.(phase := Blocked, nextRunAt := None), false;
      }
      records := records[issue := reaped];
    }

    /** One record of `recover`, with `budget` saves left to live. */
    method RecoverOne(issue: string, w: Answers, budget: nat) returns (left: nat)
      requires issue in records && 0 < budget
      modifies this`records
      ensures var r := old(records)[issue];
              if NeedsReap(r) && budget == 1 then left == 0 && records == old(records)[issue := Halfway(w, r)]
              else left == budget - (if NeedsReap(r) then 2 else 1)
                   && records == old(records)[issue := Final(w, issue, r)]
    {
      var local := records[issue];
      left := budget;
      if (local.process.Some? || local.phase == Running || local.phase == Blocked)
         && local.lastOutcome != PlacementBlocked
      {
        var safe;
        local, safe := ReapState(issue, local, w);
        left := left - 1;
        if left == 0 {
          return;
        }
        local := local.(phase := if safe then Ready else Blocked);
      }
      var before := records;
      records := records[issue := Recovered(local, TrackerSays(w, issue))];
      left := left - 1;
      assert before == old(records)[issue := before[issue]];
    }

    /** `recover`, in a process that dies right after its `saves`-th save. */
    method Recover(order: seq<string>, w: Answers, saves: nat)
      requires forall i :: 0 <= i < |order| ==> order[i] in records
      modifies this`records
      ensures records == RecoverCut(w, old(records), order, saves)
    {
      var left := saves;
      for n := 0 to |order|
        invariant forall i :: 0 <= i < |order| ==> order[i] in records
        invariant RecoverCut(w, records, order[n..], left) == RecoverCut(w, old(records), order, saves)
      {
        if left == 0 {
          return;
        }
        assert order[n..][0] == order[n] && order[n..][1..] == order[n + 1..];
        left := RecoverOne(order[n], w, left);
      }
    }

    // ----- the end of an attempt

    method ScheduleCleanContinuation(issue: string, local: IssueState, now: real)
      requires config.Valid()
      modifies this`records
      ensures records == old(records)[issue := CleanContinuation(local, Schedule(local, config, now).continueAt)]
      ensures records[issue].phase == ContinuationWait && records[issue].failureCount == 0
      ensures records[issue].continuationIndex == local.continuationIndex + 1
      ensures records[issue].nextRunAt ==
              Some(now + ContinuationDelay(config.continuation, records[issue].continuationIndex))
    {
      var index := local.continuationIndex + 1;
      var delay := config.continuation.delay;
      if index % config.continuation.maxConsecutive == 0 {
        delay := Max(delay, config.continuation.yieldDelay);
      }
      records := records[issue := local.(failureCount := 0, continuationIndex := index, phase := ContinuationWait,
                                         nextRunAt := Some(now + delay))];
    }

    method ScheduleFailure(issue: string, local: IssueState, now: real, summary: string)
      requires config.Valid()
      modifies this`records
      ensures records == old(records)[issue := Failure(local, Schedule(local, config, now).retryAt, summary)]
      ensures records[issue].phase == RetryWait && records[issue].failureCount == local.failureCount + 1
      ensures records[issue].continuationIndex == 0 && records[issue].process == None
      ensures records[issue].nextRunAt == Some(now + RetryDelay(config.retry, records[issue].failureCount))
    {
      var failures := local.failureCount + 1;
      var delay := RetryDelay(config.retry, failures);
      records := records[issue := local.(failureCount := failures, continuationIndex := 0, phase := RetryWait,
                                         nextRunAt := Some(now + delay), lastSummary := summary, process := None)];
    }

    method SettleWithTracker(issue: string, local: IssueState, result: AgentResult, mode: Mode, answer: TrackerAnswer,
                             now: real)
      requires config.Valid()
      modifies this`records
      ensures records == old(records)[issue := Finished(local, result, mode, answer, Schedule(local, config, now))]
    {
      if answer.TrackerFailed? {
        ScheduleFailure(issue, local, now, result.summary);
      } else if answer.disposition != Active {
        records := records[issue := local.(phase := Released, nextRunAt := None, process := None)];
      } else if result.outcome == CleanExit {
        ScheduleCleanContinuation(issue, local, now);
      } else if result.outcome == Cancelled {
        records := records[issue := local.(phase := Ready, nextRunAt := Some(now))];
      } else if mode == NativeResume {
        ScheduleFailure(issue, local.(session := None), now, result.summary);
      } else {
        ScheduleFailure(issue, local, now, result.summary);
      }
    }

    /** `_finish_attempt`, in a process that `dies` after its first save or not: what it saves,
        and what that means for every outcome and answer. */
    method FinishAttempt(issue: string, local: IssueState, result: AgentResult, mode: Mode, number: nat,
                         answer: TrackerAnswer, now: real, dies: bool)
      requires config.Valid()
      modifies this`records
      ensures records == old(records)[issue :=
                           if dies && result.executorSafe then ReportedSafe(local, result, number)
                           else AttemptFinished(local, result, mode, number, answer, config, now)]
      ensures dies && result.executorSafe ==>
                && records[issue].phase == local.phase && records[issue].process == None
                && records[issue].totalAttempts == number
                && records[issue].lastOutcome == AttemptEnded(result.outcome)
      ensures !(dies && result.executorSafe) ==>
                EndsAs(local, records[issue], result, mode, number, answer, config, now)
    {
      EveryEnd(local, result, mode, number, answer, config, now);
      var r := local.(totalAttempts := number, lastOutcome := AttemptEnded(result.outcome),
                      lastSummary := result.summary);
      if result.session.Some? && result.session.value.text != "" {
        r := r.(session := result.session);
      }
      if !result.executorSafe {
        records := records[issue := r.(phase := Blocked, nextRunAt := None, lastOutcome := ExecutorStopUnconfirmed)];
        return;
      }
      r := r.(process := None);
      records := records[issue := r];
      if !dies {
        SettleWithTracker(issue, r, result, mode, answer, now);
      }
    }

    /** The CancelledError handler of `_execute`; a reap that raises takes the handler with it. */
    method HandleCancellation(issue: string, local: IssueState, id: string, target: Target, w: Answers,
                              reapRaises: bool,
                              now: real)
      modifies this`records
      ensures records == if reapRaises then old(records)
                         else old(records)[issue := TaskCancelled(local, TargetReap(w, target, id, local.process), now)]
      ensures !reapRaises ==>
                records[issue] == if StoppedOn(w, target, id, local.process)
                                  then local.(phase := Ready, nextRunAt := Some(now), process := None,
                                              lastOutcome := AttemptEnded(Cancelled))
                                  else local.(phase := Blocked, nextRunAt := None,
                                              lastOutcome := AttemptEnded(Cancelled))
    {
      if reapRaises {
        return;
      }
      var r := local;
      if TargetReap(w, target, id, local.process) {
        r := r.(process := None, phase := Ready, nextRunAt := Some(now));
      } else {
        r := r.(phase := Blocked, nextRunAt := None);
      }
      records := records[issue := r.(lastOutcome := AttemptEnded(Cancelled))];
    }

    /** The general exception handler of `_execute`. */
    method HandleFault(issue: string, local: IssueState, id: string, target: Target, number: nat, w: Answers,
                       reapRaises: bool, now: real)
      requires config.Valid()
      modifies this`records
      ensures records == if reapRaises then old(records)
                         else old(records)[issue := TaskFailed(local, number, TargetReap(w, target, id, local.process),
                                                               Schedule(local, config, now).retryAt)]
      ensures !reapRaises && StoppedOn(w, target, id, local.process) ==>
                && records[issue].phase == RetryWait && records[issue].process == None
                && records[issue].totalAttempts == number && records[issue].failureCount == local.failureCount + 1
                && records[issue].continuationIndex == 0
                && records[issue].nextRunAt == Some(now + RetryDelay(config.retry, records[issue].failureCount))
      ensures !reapRaises && !StoppedOn(w, target, id, local.process) ==>
                records[issue] == local.(totalAttempts := number, phase := Blocked, nextRunAt := None,
                                         lastOutcome := ExecutorStopUnconfirmed)
    {
      if reapRaises {
        return;
      }
      var r := local.(totalAttempts := number);
      if TargetReap(w, target, id, local.process) {
        ScheduleFailure(issue, r.(process := None), now, local.lastSummary);
      } else {
        records := records[issue := r.(phase := Blocked, nextRunAt := None, lastOutcome := ExecutorStopUnconfirmed)];
      }
    }

    // ----- reconciliation passes

    /** `_reconcile_waiting`, as one pass without interference. */
    method ReconcileWaiting(order: seq<string>, active: set<string>, w: Answers)
      requires Distinct(order) && forall i :: 0 <= i < |order| ==> order[i] in records
      modifies this`records
      ensures records.Keys == old(records).Keys
      ensures forall i | i in records ::
                records[i] == if i in order && i !in running then Waited(w, active, i, old(records)[i])
                              else old(records)[i]
    {
      for n := 0 to |order|
        invariant records.Keys == old(records).Keys
        invariant forall i | i in records ::
                    records[i] == if i in order[..n] && i !in running then Waited(w, active, i, old(records)[i])
                                  else old(records)[i]
      {
        var issue := order[n];
        assert issue !in order[..n];
        var local := records[issue];
        if !(issue in running || local.phase == Released || local.phase == Blocked) && issue !in active {
          var answer := TrackerSays(w, issue);
          if answer.Found? && answer.disposition != Active {
            records := records[issue := local.(phase := Released, nextRunAt := None, process := None)];
          }
        }
      }
    }

    /** One record of `_reconcile_blocked`. */
    method ReconcileBlockedOne(issue: string, active: set<string>, w: Answers)
      requires issue in records
      modifies this`records
      ensures records == old(records)[issue := BlockedPassed(w, active, issue, old(records)[issue])]
    {
      var local := records[issue];
      assert records == records[issue := local];
      var answer := if issue in active then Found(Active) else TrackerSays(w, issue);
      if local.phase == Blocked && local.lastOutcome == PlacementBlocked {
        if answer.Found? && answer.disposition != Active {
          records := records[issue := local.(phase := Released, nextRunAt := None,
                                             lastOutcome := PlacementBlockReleased)];
        }
      } else if local.phase == Blocked {
        var safe;
        local, safe := ReapState(issue, local, w);
        if safe {
          if answer.TrackerFailed? {
            local := local.(phase := Ready);
          } else {
            local := local.(phase := if answer.disposition == Active then Ready else Released, nextRunAt := None,
                            lastOutcome := ExecutorStopConfirmed);
          }
          records := records[issue := local];
        }
      }
    }

    /** `_reconcile_blocked`: nothing leaves an executor block but by a confirmed reap. */
    method ReconcileBlocked(order: seq<string>, active: set<string>, w: Answers)
      requires Distinct(order) && forall i :: 0 <= i < |order| ==> order[i] in records
      modifies this`records
      ensures records.Keys == old(records).Keys
      ensures forall i | i in records ::
                records[i] == if i in order then BlockedPassed(w, active, i, old(records)[i]) else old(records)[i]
      ensures forall i | i in records && ExecutorBlocked(old(records)[i]) && !ExecutorBlocked(records[i]) ::
                ReapOf(w, old(records)[i]) == Confirmed
    {
      for n := 0 to |order|
        invariant records.Keys == old(records).Keys
        invariant forall i | i in records ::
                    records[i] == if i in order[..n] then BlockedPassed(w, active, i, old(records)[i])
                                  else old(records)[i]
      {
        assert order[n] !in order[..n];
        ReconcileBlockedOne(order[n], active, w);
      }
    }

    /** A running entry once its issue has been looked up again. */
    function AfterCheck(e: RunningEntry, issue: string, labels: seq<string>, w: Answers): RunningEntry {
      match CancelDecision(TrackerSays(w, issue), Place(labels, labelPrefix, w.configured, w.home), e.target)
      case None => e
      case Some(why) => e.(cancelReason := Some(why))
    }

    /** `_reconcile_running`: which tasks are asked to stop, and why. */
    method ReconcileRunning(order: seq<string>, labels: map<string, seq<string>>, w: Answers)
      requires (forall i :: 0 <= i < |order| ==> order[i] in running && order[i] in labels) && Distinct(order)
      modifies this`running
      ensures running.Keys == old(running).Keys
      ensures forall i | i in running ::
                running[i] == if i in order then AfterCheck(old(running)[i], i, labels[i], w) else old(running)[i]
      ensures forall t :: On(running, t) == On(old(running), t)
    {
      for n := 0 to |order|
        invariant running.Keys == old(running).Keys
        invariant forall i | i in running ::
                    running[i] == if i in order[..n] then AfterCheck(old(running)[i], i, labels[i], w)
                                  else old(running)[i]
      {
        var issue := order[n];
        assert issue !in order[..n];
        var entry := running[issue];
        var answer := TrackerSays(w, issue);
        if answer.Found? {
          if answer.disposition == Active {
            var placed := Place(labels[issue], labelPrefix, w.configured, w.home);
            if placed.None? {
              running := running[issue := entry.(cancelReason := Some(PlacementInvalid))];
            } else if placed.value != entry.target {
              running := running[issue := entry.(cancelReason := Some(TargetChanged))];
            }
          } else {
            running := running[issue := entry.(cancelReason := Some(TrackerSaid(answer.disposition)))];
          }
        }
      }
    }

    // ----- dispatch

    /** What the dispatcher makes of a candidate's record. */
    function Verdict(issue: Issue, w: Answers, now: real): Verdict
      reads this
    {
      Examine(Rec(issue.id), issue, labelPrefix, w, now)
    }

    method Consider(issue: Issue, w: Answers, now: real) returns (offer: Option<Target>)
      modifies this`records
      ensures var v := old(Verdict(issue, w, now));
              records == old(records)[issue.id := v.rec] && offer == if v.Offer? then Some(v.target) else None
    {
      var local := Rec(issue.id);
      offer := None;
      if local.phase == Running {
        var safe;
        local, safe := ReapState(issue.id, local, w);
        if !safe {
          return;
        }
        local := local.(phase := Ready, nextRunAt := None);
      }
      var placed := Place(issue.labels, labelPrefix, w.configured, w.home);
      if placed.None? {
        local := local.(phase := Blocked, lastOutcome := PlacementBlocked, nextRunAt := None);
      } else if local.phase != Blocked || local.lastOutcome == PlacementBlocked {
        if local.phase == Blocked {
          local := local.(phase := Ready, lastOutcome := PlacementUnblocked);
        }
        if Dispatchable(local.phase) && Due(local, now) {
          offer := placed;
        }
      }
      records := records[issue.id := local];
    }

    /** One turn of the dispatch loop, with a free global slot. */
    method TryDispatch(issue: Issue, w: Answers, now: real, counts: map<Target, int>)
      returns (target: Option<Target>, tally: map<Target, int>)
      requires WithinCaps() && |running| < maxConcurrent && w.configured == caps.Keys && Tallies(counts, caps, running)
      modifies this`records, this`running
      ensures WithinCaps() && Tallies(tally, caps, running)
      ensures |running| == |old(running)| + if target.Some? then 1 else 0
      ensures forall i :: i != issue.id ==> RecordOf(records, i) == RecordOf(old(records), i)
      ensures var v := old(Verdict(issue, w, now));
              target == if issue.id !in old(running) && v.Offer? && |On(old(running), v.target)| < caps[v.target]
                        then Some(v.target) else None
      ensures forall t :: target == Some(t)
                          <==> issue.id !in old(running)
                               && old(MayRun(Rec(issue.id), issue, labelPrefix, w, now, t))
                               && |On(old(running), t)| < caps[t]
      ensures running == if target.Some? then old(running)[issue.id := RunningEntry(target.value, None)]
                         else old(running)
      ensures issue.id !in old(running) ==>
                Rec(issue.id) == var v := old(Verdict(issue, w, now));
                                 if target.Some? then Claimed(v.rec, target.value) else v.rec
    {
      target, tally := None, counts;
      forall t
        ensures old(Verdict(issue, w, now)).Offer? && old(Verdict(issue, w, now)).target == t
                <==> old(MayRun(Rec(issue.id), issue, labelPrefix, w, now, t))
      {
        OfferMeans(old(Rec(issue.id)), issue, labelPrefix, w, now, t);
      }
      if issue.id in running {
        return;
      }
      var offer := Consider(issue, w, now);
      if offer.Some? && counts[offer.value] < caps[offer.value] {
        target := offer;
        tally := counts[offer.value := counts[offer.value] + 1];
        records := records[issue.id := Claimed(records[issue.id], offer.value)];
        running := running[issue.id := RunningEntry(offer.value, None)];
        forall t | t in caps
          ensures |On(running, t)| <= caps[t] && tally[t] == |On(running, t)|
        {
          OnAfter(old(running), issue.id, RunningEntry(offer.value, None), t);
        }
      }
    }

    method DispatchTurn(ghost p: Pass, n: nat, ordered: seq<Issue>, w: Answers, now: real, counts: map<Target, int>)
      returns (tally: map<Target, int>, launched: bool)
      requires n < |ordered| && p == Pass(ordered, w, now, labelPrefix, caps, p.disk, p.start)
      requires WithinCaps() && |running| < maxConcurrent && w.configured == caps.Keys && Tallies(counts, caps, running)
      requires p.Framed(records, running, n) && p.DoneUpTo(records, running, n) && p.InTurn(running)
      modifies this`records, this`running
      ensures WithinCaps() && Tallies(tally, caps, running)
      ensures |running| == |old(running)| + if launched then 1 else 0
      ensures p.Framed(records, running, n + 1) && p.DoneUpTo(records, running, n + 1) && p.InTurn(running)
    {
      ghost var disk, before := records, running;
      var target;
      target, tally := TryDispatch(ordered[n], w, now, counts);
      launched := target.Some?;
      p.Turn(disk, before, records, running, n, target);
    }

    /** The dispatch loop of `tick` over the candidates in their order.  The caps hold; only
        candidates that may run are dispatched, and one that may run is left out only when the
        scheduler or its target is full; among those that may run on one target the earlier go
        first. */
    method Dispatch(ordered: seq<Issue>, w: Answers, now: real)
      requires WithinCaps() && w.configured == caps.Keys
      modifies this`records, this`running
      ensures WithinCaps()
      ensures var p := Pass(ordered, w, now, labelPrefix, caps, old(records), old(running));
              && p.Framed(records, running, |ordered|)
              && (forall k | 0 <= k < |ordered| ::
                    p.Done(records, running, k) || (|running| == maxConcurrent && p.Untouched(records, running, k)))
              && p.InTurn(running) && p.ThoseWhoMayRun(running, |running| == maxConcurrent)
    {
      ghost var p := Pass(ordered, w, now, labelPrefix, caps, records, running);
      var slots := maxConcurrent - |running|;
      var counts := map t | t in caps :: |On(running, t)|;
      var n := 0;
      while n < |ordered| && 0 < slots
        invariant 0 <= n <= |ordered| && WithinCaps() && slots == maxConcurrent - |running|
        invariant Tallies(counts, caps, running)
        invariant p.Framed(records, running, n) && p.DoneUpTo(records, running, n) && p.InTurn(running)
      {
        var launched;
        counts, launched := DispatchTurn(p, n, ordered, w, now, counts);
        slots := slots - if launched then 1 else 0;
        n := n + 1;
      }
      p.AtTheEnd(records, running, n);
      p.RunIfTheyMay(records, running, |running| == maxConcurrent);
    }

    /** The callback of `_dispatch`: a task that is done frees its slots. */
    method Completed(issue: string)
      requires WithinCaps()
      modifies this`running
      ensures WithinCaps()
      ensures running == old(running) - {issue}
      ensures issue in old(running) ==>
                |On(running, old(running)[issue].target)| < |On(old(running), old(running)[issue].target)|
    {
      running := running - {issue};
      forall t
        ensures |On(running, t)| ==
                |On(old(running), t)| - if issue in old(running) && old(running)[issue].target == t then 1 else 0
      {
        OnWithout(old(running), running, issue, t);
      }
      if issue in old(running) {
        assert old(running) == running[issue := old(running)[issue]];
        assert |running| == |old(running)| - 1;
      } else {
        assert running == old(running);
      }
    }

    // ----- the whole tick

    /** A listed issue whose record was released becomes ready again. */
    method ReactivateListed(listed: seq<Issue>)
      modifies this`records
      ensures forall i :: RecordOf(records, i) ==
                          if i in Ids(listed) then Woken(RecordOf(old(records), i)) else RecordOf(old(records), i)
    {
      for n := 0 to |listed|
        invariant forall i :: RecordOf(records, i) ==
                              if i in Ids(listed[..n]) then Woken(RecordOf(old(records), i))
                              else RecordOf(old(records), i)
      {
        var issue := listed[n].id;
        var local := Rec(issue);
        records := records[issue := if local.phase == Released then Reactivated(local) else local];
        assert Ids(listed[..n + 1]) == Ids(listed[..n]) + {issue} by {
          assert listed[..n + 1] == listed[..n] + [listed[n]];
        }
      }
    }

    /** The passes of `tick` over the records, before it dispatches. */
    method ReconcileRecords(listed: seq<Issue>, order: seq<string>, w: Answers)
      requires Distinct(order) && forall i :: i in records <==> i in order
      modifies this`records
      ensures forall i | i in old(records) || i in Ids(listed) ::
                RecordOf(records, i) == BeforeDispatch(w, Ids(listed), i in running, i, RecordOf(old(records), i))
    {
      ReconcileBlocked(order, Ids(listed), w);
      ReconcileWaiting(order, Ids(listed), w);
      ReactivateListed(listed);
    }

    /** `tick`, without interference from the tasks; `order` lists the records and
        `tasks` the running issues.  A listing that failed is None. */
    method Tick(listing: Option<seq<Issue>>, stopping: bool, tasks: seq<string>, labels: map<string, seq<string>>,
                order: seq<string>, w: Answers, now: real) returns (ghost p: Pass)
      requires WithinCaps() && w.configured == caps.Keys
      requires Distinct(tasks) && forall i :: i in running <==> i in tasks
      requires forall i | i in tasks :: i in labels
      requires Distinct(order) && forall i :: i in records <==> i in order
      modifies this`records, this`running
      ensures WithinCaps()
      ensures p.start.Keys == old(running).Keys
              && forall i | i in p.start :: p.start[i] == AfterCheck(old(running)[i], i, labels[i], w)
      ensures if stopping || listing.None? then records == old(records) && running == p.start
              else
                && p.ordered == SortIssues(listing.value)
                && p.w == w && p.now == now && p.prefix == labelPrefix && p.caps == caps
                && (forall i | i in Ids(listing.value) ::
                      RecordOf(p.disk, i) ==
                      BeforeDispatch(w, Ids(listing.value), i in old(running), i, RecordOf(old(records), i)))
                && p.Framed(records, running, |p.ordered|)
                && (forall k | 0 <= k < |p.ordered| ::
                      p.Done(records, running, k) || (|running| == maxConcurrent && p.Untouched(records, running, k)))
                && p.ThoseWhoMayRun(running, |running| == maxConcurrent) && p.LowerGoesFirst(running)
                && (forall x :: x in p.ordered <==> x in listing.value)
                && (DistinctIds(listing.value) ==> p.EveryoneIsFresh())
    {
      ReconcileRunning(tasks, labels, w);
      p := Pass([], w, now, labelPrefix, caps, records, running);
      if stopping || listing.None? {
        return;
      }
      ReconcileRecords(listing.value, order, w);
      var ordered := SortIssues(listing.value);
      p := Pass(ordered, w, now, labelPrefix, caps, records, running);
      Dispatch(ordered, w, now);
      p.RankingHolds(running);
      p.ListingIsSorted(listing.value);
    }

    /** `_next_wait_seconds`. */
    method NextWaitSeconds(order: seq<string>, poll: real, now: real) returns (wait: real)
      requires 0.0 < poll && forall i :: 0 <= i < |order| ==> order[i] in records
      ensures 0.0 < wait <= poll
      ensures |running| >= maxConcurrent ==> wait == poll
      ensures |running| < maxConcurrent ==>
                && (forall i :: 0 <= i < |order| && Timed(records[order[i]]) ==>
                      wait <= TimeLeft(records[order[i]], now))
                && (wait == poll
                    || exists i :: 0 <= i < |order| && Timed(records[order[i]])
                                   && wait == TimeLeft(records[order[i]], now))
    {
      wait := poll;
      if |running| >= maxConcurrent {
        return;
      }
      for n := 0 to |order|
        invariant 0.0 < wait <= poll
        invariant forall i :: 0 <= i < n && Timed(records[order[i]]) ==> wait <= TimeLeft(records[order[i]], now)
        invariant wait == poll
                  || exists i :: 0 <= i < n && Timed(records[order[i]]) && wait == TimeLeft(records[order[i]], now)
      {
        var local := records[order[n]];
        if Dispatchable(local.phase) && local.nextRunAt.Some? {
          wait := Min(wait, Max(0.01, local.nextRunAt.value - now));
        }
      }
    }
  }

  /** Waiting for an instant of its own. */
  predicate Timed(r: IssueState) {
    Dispatchable(r.phase) && r.nextRunAt.Some?
  }

  function TimeLeft(r: IssueState, now: real): real
    requires Timed(r)
  {
    Max(0.01, r.nextRunAt.value - now)
  }

  function RecordOf(records: map<string, IssueState>, issue: string): IssueState {
    if issue in records then records[issue] else NEW_ISSUE
  }

  /** `counts` holds the number of tasks on every configured target. */
  ghost predicate Tallies(counts: map<Target, int>, caps: map<Target, int>, running: map<string, RunningEntry>) {
    forall t | t in caps :: t in counts && counts[t] == |On(running, t)|
  }

  /** One pass of the dispatch loop, as it stood at its start. */
  datatype Pass = Pass(
    ordered: seq<Issue>,
    w: Answers,
    now: real,
    prefix: string,
    caps: map<Target, int>,
    disk: map<string, IssueState>,
    start: map<string, RunningEntry>)
  {
    /** One of the first `n` candidates has id `i`. */
    ghost predicate Seen(n: nat, i: string) {
      exists k :: 0 <= k < n && k < |ordered| && ordered[k].id == i
    }

    /** Candidate `k` has no task yet, and the list names it once. */
    ghost predicate Fresh(k: nat)
      requires k < |ordered|
    {
      ordered[k].id !in start && forall j | 0 <= j < |ordered| && j != k :: ordered[j].id != ordered[k].id
    }

    function Finding(k: nat): Verdict
      requires k < |ordered|
    {
      Examine(RecordOf(disk, ordered[k].id), ordered[k], prefix, w, now)
    }

    /** Nothing but the first `n` candidates changed, and no task was lost. */
    ghost predicate Framed(records: map<string, IssueState>, running: map<string, RunningEntry>, n: nat) {
      && (forall i :: !Seen(n, i) ==> RecordOf(records, i) == RecordOf(disk, i) && (i in running <==> i in start))
      && (forall i | i in start :: i in running && running[i] == start[i])
    }

    ghost predicate Untouched(records: map<string, IssueState>, running: map<string, RunningEntry>, k: nat)
      requires k < |ordered|
    {
      Fresh(k) ==> ordered[k].id !in running && RecordOf(records, ordered[k].id) == RecordOf(disk, ordered[k].id)
    }

    /** What the pass made of candidate `k`: dispatched to the target it was offered, or
        left out, for want of an offer or because that target is full. */
    ghost predicate Done(records: map<string, IssueState>, running: map<string, RunningEntry>, k: nat)
      requires k < |ordered|
    {
      Fresh(k) ==>
        var v, i := Finding(k), ordered[k].id;
        if i in running then
          v.Offer? && running[i] == RunningEntry(v.target, None) && RecordOf(records, i) == Claimed(v.rec, v.target)
        else
          RecordOf(records, i) == v.rec && (v.Offer? ==> v.target in caps && |On(running, v.target)| == caps[v.target])
    }

    ghost predicate DoneUpTo(records: map<string, IssueState>, running: map<string, RunningEntry>, n: nat) {
      forall k | 0 <= k < n && k < |ordered| :: Done(records, running, k)
    }

    /** If a candidate was dispatched to a target, so was every earlier one offered it. */
    ghost predicate InTurn(running: map<string, RunningEntry>) {
      forall j, k | 0 <= j < k < |ordered| && Fresh(j) && Fresh(k) && Finding(j).Offer? && Finding(k).Offer?
                    && Finding(j).target == Finding(k).target && ordered[k].id in running ::
        ordered[j].id in running
    }

    /** What one turn of the loop does with candidate `n`. */
    ghost predicate Took(records: map<string, IssueState>, before: map<string, RunningEntry>,
                         records': map<string, IssueState>, after: map<string, RunningEntry>, n: nat,
                         target: Option<Target>)
      requires n < |ordered|
    {
      var i := ordered[n].id;
      var v := Examine(RecordOf(records, i), ordered[n], prefix, w, now);
      && (forall o :: o != i ==> RecordOf(records', o) == RecordOf(records, o))
      && (v.Offer? ==> v.target in caps)
      && target == (if i !in before && v.Offer? && |On(before, v.target)| < caps[v.target] then Some(v.target)
                    else None)
      && after == (if target.Some? then before[i := RunningEntry(target.value, None)] else before)
      && (i !in before ==> RecordOf(records', i) == if target.Some? then Claimed(v.rec, target.value) else v.rec)
    }

    /** Candidate `k` may run on `t`, as the records stood at the start of the pass. */
    ghost predicate May(k: nat, t: Target)
      requires k < |ordered|
    {
      MayRun(RecordOf(disk, ordered[k].id), ordered[k], prefix, w, now, t)
    }

    lemma FindingMeans(k: nat, t: Target)
      requires k < |ordered|
      ensures Finding(k).Offer? && Finding(k).target == t <==> May(k, t)
    {
      OfferMeans(RecordOf(disk, ordered[k].id), ordered[k], prefix, w, now, t);
    }

    /** Candidate `k` has been dispatched to a target where it may run, or there is none that
        has a slot left for it. */
    ghost predicate RunsIfItMay(k: nat, running: map<string, RunningEntry>, full: bool)
      requires k < |ordered|
    {
      if ordered[k].id in running then May(k, running[ordered[k].id].target)
      else full || forall t | May(k, t) :: t in caps && |On(running, t)| == caps[t]
    }

    ghost predicate ThoseWhoMayRun(running: map<string, RunningEntry>, full: bool) {
      forall k | 0 <= k < |ordered| && Fresh(k) :: RunsIfItMay(k, running, full)
    }

    lemma RunIfTheyMay(records: map<string, IssueState>, running: map<string, RunningEntry>, full: bool)
      requires forall k | 0 <= k < |ordered| :: Done(records, running, k) || (full && Untouched(records, running, k))
      ensures ThoseWhoMayRun(running, full)
    {
      forall k | 0 <= k < |ordered| && Fresh(k)
        ensures RunsIfItMay(k, running, full)
      {
        forall t
          ensures Finding(k).Offer? && Finding(k).target == t <==> May(k, t)
        {
          FindingMeans(k, t);
        }
        assert Done(records, running, k) || (full && Untouched(records, running, k));
      }
    }

    lemma Turn(records: map<string, IssueState>, before: map<string, RunningEntry>, records': map<string, IssueState>,
               after: map<string, RunningEntry>, n: nat, target: Option<Target>)
      requires n < |ordered| && Framed(records, before, n) && DoneUpTo(records, before, n) && InTurn(before)
      requires Took(records, before, records', after, n, target)
      requires forall t | t in caps :: |On(before, t)| <= caps[t]
      ensures Framed(records', after, n + 1) && DoneUpTo(records', after, n + 1) && InTurn(after)
    {
      FramedKept(records, before, records', after, n, target);
      assert Fresh(n) ==> !Seen(n, ordered[n].id);
      DoneKept(records, before, records', after, n, target);
      InTurnKept(records, before, after, n, target);
    }

    lemma SeenNext(n: nat, i: string)
      requires n < |ordered|
      ensures Seen(n + 1, i) <==> Seen(n, i) || i == ordered[n].id
    {
      if Seen(n, i) {
        var k :| 0 <= k < n && k < |ordered| && ordered[k].id == i;
        assert k < n + 1;
      }
      if i == ordered[n].id {
        assert 0 <= n < n + 1;
      }
    }

    lemma FramedKept(records: map<string, IssueState>, before: map<string, RunningEntry>,
                     records': map<string, IssueState>, after: map<string, RunningEntry>, n: nat,
                     target: Option<Target>)
      requires n < |ordered| && Framed(records, before, n) && Took(records, before, records', after, n, target)
      ensures Framed(records', after, n + 1)
    {
      forall i
        ensures Seen(n + 1, i) <==> Seen(n, i) || i == ordered[n].id
      {
        SeenNext(n, i);
      }
    }

    lemma DoneKept(records: map<string, IssueState>, before: map<string, RunningEntry>,
                   records': map<string, IssueState>, after: map<string, RunningEntry>, n: nat, target: Option<Target>)
      requires n < |ordered| && DoneUpTo(records, before, n) && Took(records, before, records', after, n, target)
      requires Fresh(n) ==>
                 ordered[n].id !in before && RecordOf(records, ordered[n].id) == RecordOf(disk, ordered[n].id)
      requires forall t | t in caps :: |On(before, t)| <= caps[t]
      ensures DoneUpTo(records', after, n + 1)
    {
      forall k | 0 <= k < n && Fresh(k)
        ensures Done(records', after, k)
      {
        assert Done(records, before, k) && ordered[k].id != ordered[n].id;
        if target.Some? && Finding(k).Offer? {
          OnAfter(before, ordered[n].id, RunningEntry(target.value, None), Finding(k).target);
        }
      }
    }

    lemma InTurnKept(records: map<string, IssueState>, before: map<string, RunningEntry>, after: map<string,
                     RunningEntry>,
                     n: nat, target: Option<Target>)
      requires n < |ordered| && DoneUpTo(records, before, n) && InTurn(before)
      requires after == if target.Some? then before[ordered[n].id := RunningEntry(target.value, None)] else before
      requires target.Some? ==> target.value in caps && |On(before, target.value)| < caps[target.value]
      requires target.Some? && Fresh(n) ==> Finding(n).Offer? && Finding(n).target == target.value
      ensures InTurn(after)
    {
      forall j, k | 0 <= j < k < |ordered| && Fresh(j) && Fresh(k) && Finding(j).Offer? && Finding(k).Offer?
                    && Finding(j).target == Finding(k).target && ordered[k].id in after
        ensures ordered[j].id in after
      {
        if target.Some? && k == n {
          assert Done(records, before, j);
        }
      }
    }

    /** Of the candidates that may run on one target, the lower `(iid, id)` goes first. */
    ghost predicate LowerGoesFirst(running: map<string, RunningEntry>) {
      forall j, k, t | 0 <= j < |ordered| && 0 <= k < |ordered| && Fresh(j) && Fresh(k) && May(j, t) && May(k, t)
                       && RanksBefore(ordered[j], ordered[k]) && ordered[k].id in running ::
        ordered[j].id in running
    }

    lemma RankingHolds(running: map<string, RunningEntry>)
      requires InTurn(running) && exists s :: ordered == SortIssues(s)
      ensures LowerGoesFirst(running)
    {
      var s :| ordered == SortIssues(s);
      forall j, k, t | 0 <= j < |ordered| && 0 <= k < |ordered| && Fresh(j) && Fresh(k) && May(j, t) && May(k, t)
                       && RanksBefore(ordered[j], ordered[k]) && ordered[k].id in running
        ensures ordered[j].id in running
      {
        FindingMeans(j, t);
        FindingMeans(k, t);
        if k < j {
          SortedByRank(s, k, j);
        }
      }
    }

    /** The list names every candidate once. */
    ghost predicate EveryoneIsFresh() {
      forall k | 0 <= k < |ordered| :: Fresh(k) <==> ordered[k].id !in start
    }

    lemma ListingIsSorted(listed: seq<Issue>)
      requires ordered == SortIssues(listed)
      ensures forall x :: x in ordered <==> x in listed
      ensures DistinctIds(listed) ==> EveryoneIsFresh()
    {
      SortIssuesSorts(listed);
      SameMembers(ordered, listed);
      if DistinctIds(listed) {
        SortKeepsDistinct(listed);
      }
    }

    lemma AtTheEnd(records: map<string, IssueState>, running: map<string, RunningEntry>, n: nat)
      requires n <= |ordered| && Framed(records, running, n)
      ensures Framed(records, running, |ordered|)
      ensures forall k | n <= k < |ordered| :: Untouched(records, running, k)
    {
      forall i | Seen(n, i)
        ensures Seen(|ordered|, i)
      {
        var k :| 0 <= k < n && k < |ordered| && ordered[k].id == i;
        assert k < |ordered|;
      }
      forall k | n <= k < |ordered| && Fresh(k)
        ensures !Seen(n, ordered[k].id)
      {
      }
    }
  }
}
