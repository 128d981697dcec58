/** Safety of the attempt protocol over every interleaving, and exactly where it stops. */
module RemoteTheorems {
  import opened Wrappers
  import opened RemoteAttempt

  lemma ReachesSelf(a: Attempt)
    ensures Reaches(a, a)
  {
    assert SafeRun(a, []) && Exec(a, []) == a;
  }

  lemma ReachesNext(a: Attempt, b: Attempt, e: Event)
    requires Reaches(a, b) && !Hazard(b, e)
    ensures Reaches(a, Next(b, e))
  {
    var es :| SafeRun(a, es) && Exec(a, es) == b;
    var fs := es + [e];
    assert fs[..|fs| - 1] == es;
    assert SafeRun(a, fs) && Exec(a, fs) == Next(b, e);
  }

  /** Every state of a hazard-free run satisfies the invariant. */
  lemma {:induction false} RunKeepsInv(a: Attempt, es: seq<Event>)
    requires Inv(a) && SafeRun(a, es)
    ensures Inv(Exec(a, es))
  {
    if es != [] {
      RunKeepsInv(a, es[..|es| - 1]);
      StepKeepsInv(Exec(a, es[..|es| - 1]), es[|es| - 1]);
    }
  }

  /** Lease coverage in every run of an attempt. */
  lemma LeaseCoversLiveAgent(es: seq<Event>)
    requires SafeRun(FRESH, es)
    ensures var a := Exec(FRESH, es);
            a.agent == Live ==> a.lease == Some(AgentProcess) || (a.lease == Some(RunHelper) && Matches(a, RunHelper))
  {
    FreshInv();
    RunKeepsInv(FRESH, es);
  }

  lemma ConfirmedIsQuiet(a: Attempt)
    requires Inv(a) && Confirmed(a)
    ensures a.tombstone && !CanStillRun(a)
  {
    var k :| 0 <= k < |a.cancels| && a.cancels[k] == CancelAnswered(true);
    assert !Unmarked(a.cancels[k]) && !Harmless(a, a.cancels[k]);
  }

  lemma ConfirmedPersists(a: Attempt, e: Event)
    requires Confirmed(a)
    ensures Confirmed(Next(a, e))
  {
    var k :| 0 <= k < |a.cancels| && a.cancels[k] == CancelAnswered(true);
    assert Next(a, e).cancels[k] == CancelAnswered(true);
  }

  /** A confirmed cancel is final: whatever is delivered afterwards, including
      the attempt's own delayed `run` request, no agent lives or is spawned. */
  lemma {:induction false} ConfirmedCancelIsFinal(a: Attempt, es: seq<Event>)
    requires Inv(a) && Confirmed(a) && SafeRun(a, es)
    ensures Confirmed(Exec(a, es)) && Exec(a, es).agent != Live
    ensures a.agent == NotSpawned ==> Exec(a, es).agent == NotSpawned
  {
    RunKeepsInv(a, es);
    if es != [] {
      var b, e := Exec(a, es[..|es| - 1]), es[|es| - 1];
      ConfirmedCancelIsFinal(a, es[..|es| - 1]);
      ConfirmedPersists(b, e);
      RunKeepsInv(a, es[..|es| - 1]);
      ConfirmedIsQuiet(b);
    }
    ConfirmedIsQuiet(Exec(a, es));
  }

  /** Both requests have been sent: the scheduler has no more say in the attempt's steps. */
  predicate Sent(a: Attempt) {
    !a.runner.RunUnsent? && !a.prepare.PrepareUnsent?
  }

  lemma SentPersists(a: Attempt, e: Event)
    requires Sent(a)
    ensures Sent(Next(a, e))
    ensures Next(a, e) == a || !(e.SendRun? || e.SendPrepare?)
  {}

  // ----- exactly which attempts can still run

  /** Once nothing can run, only the `run` request itself could change that. */
  lemma QuietPersists(a: Attempt, e: Event)
    requires Inv(a) && !CanStillRun(a) && !Hazard(a, e)
    requires a.runner.RunUnsent? ==> !e.SendRun?
    ensures !CanStillRun(Next(a, e))
    ensures a.agent == NotSpawned ==> Next(a, e).agent == NotSpawned
    ensures Next(a, e).runner.RunUnsent? == a.runner.RunUnsent?
  {}

  lemma {:induction false} QuietForever(a: Attempt, es: seq<Event>)
    requires Inv(a) && !CanStillRun(a) && !a.runner.RunUnsent? && SafeRun(a, es)
    ensures !CanStillRun(Exec(a, es)) && !Exec(a, es).runner.RunUnsent?
  {
    if es != [] {
      QuietForever(a, es[..|es| - 1]);
      RunKeepsInv(a, es[..|es| - 1]);
      QuietPersists(Exec(a, es[..|es| - 1]), es[|es| - 1]);
    }
  }

  function Remaining(r: Runner): nat {
    match r
    case RunInFlight => 6
    case RunBegun => 5
    case RunLeased => 4
    case RunPreparing => 3
    case RunRenewed => 2
    case RunCleared => 1
    case _ => 0
  }

  lemma RunStepAdvances(a: Attempt, b: Attempt)
    requires Inv(a) && CanStillRun(a) && a.agent != Live && b == Next(a, RunStep(true))
    ensures Inv(b) && CanStillRun(b) && Remaining(b.runner) < Remaining(a.runner)
    ensures b.agent == Live ==> b.runner == RunSpawned && b.lease == Some(RunHelper)
  {
    StepKeepsInv(a, RunStep(true));
  }

  /** The helper, undisturbed, gets its agent running. */
  lemma {:induction false} RunsToLive(a: Attempt, b: Attempt) returns (c: Attempt)
    requires Inv(b) && CanStillRun(b) && Reaches(a, b)
    ensures Reaches(a, c) && c.agent == Live
    ensures if b.agent == Live then c == b else c.runner == RunSpawned && c.lease == Some(RunHelper)
    decreases Remaining(b.runner)
  {
    c := b;
    if b.agent != Live {
      c := Next(b, RunStep(true));
      RunStepAdvances(b, c);
      ReachesNext(a, b, RunStep(true));
      if c.agent != Live {
        c := RunsToLive(a, c);
      }
    }
  }

  /** `CanStillRun` is exact: it holds just when some continuation has a live agent. */
  lemma CanStillRunIsExact(a: Attempt)
    requires Inv(a) && !a.runner.RunUnsent?
    ensures CanStillRun(a) <==> exists b :: Reaches(a, b) && b.agent == Live
  {
    if CanStillRun(a) {
      ReachesSelf(a);
      var b := RunsToLive(a, a);
    }
    forall b | Reaches(a, b) && b.agent == Live
      ensures CanStillRun(a)
    {
      var es :| SafeRun(a, es) && Exec(a, es) == b;
      if !CanStillRun(a) {
        QuietForever(a, es);
      }
    }
  }

  // ----- exactly which helper crashes the protocol survives

  /** A stop was confirmed although the agent lives. */
  predicate Violated(a: Attempt) {
    Confirmed(a) && a.agent == Live
  }

  function Patience(c: Canceller): nat {
    match c
    case CancelBegun => 5
    case CancelMarked => 4
    case CancelLoaded(_) => 3
    case CancelSignalled(_) => 2
    case CancelClearing(_) => 1
    case _ => 0
  }

  /** Cancel helper `k` judges, or will judge, the live agent by its dead parent. */
  predicate Misled(a: Attempt, k: nat) {
    && a.agent == Live && a.runner.RunCrashed? && k < |a.cancels|
    && (Holds(a.cancels[k], RunHelper)
        || ((a.cancels[k].CancelBegun? || a.cancels[k].CancelMarked?) && a.lease == Some(RunHelper)))
  }

  lemma {:induction false} MisledCancelConfirms(a: Attempt, b: Attempt, k: nat) returns (c: Attempt)
    requires Reaches(a, b) && Misled(b, k)
    ensures Reaches(a, c) && Violated(c)
    decreases Patience(b.cancels[k])
  {
    var e := CancelStep(k, true);
    ReachesNext(a, b, e);
    c := Next(b, e);
    if b.cancels[k].CancelClearing? {
      assert c.cancels[k] == CancelAnswered(true);
    } else {
      c := MisledCancelConfirms(a, c, k);
    }
  }

  lemma UnsafeCrashMisleads(a: Attempt) returns (c: Attempt)
    requires Inv(a) && Enabled(a, RunCrash) && !CrashSafe(a)
    ensures Reaches(Step(a, RunCrash), c) && Violated(c)
  {
    var b := Step(a, RunCrash);
    ReachesSelf(b);
    if SomeCancellerHolds(a, RunHelper) {
      var k :| 0 <= k < |a.cancels| && Holds(a.cancels[k], RunHelper);
      c := MisledCancelConfirms(b, b, k);
    } else {
      ReachesNext(b, b, SendCancel);
      c := MisledCancelConfirms(b, Next(b, SendCancel), |b.cancels|);
    }
  }

  /** A crash of the run helper is survivable just when it leaves the agent covered. */
  lemma CrashSafeIsExact(a: Attempt)
    requires Inv(a) && Enabled(a, RunCrash)
    ensures CrashSafe(a) <==> forall c :: Reaches(Step(a, RunCrash), c) ==> !Violated(c)
  {
    if !CrashSafe(a) {
      var c := UnsafeCrashMisleads(a);
    } else {
      var b := Step(a, RunCrash);
      StepKeepsInv(a, RunCrash);
      forall c | Reaches(b, c)
        ensures !Violated(c)
      {
        var es :| SafeRun(b, es) && Exec(b, es) == c;
        RunKeepsInv(b, es);
        if Confirmed(c) {
          ConfirmedIsQuiet(c);
        }
      }
    }
  }

  // ----- a cancel can always confirm

  /** Cancel helper `k` has not met a process that outlives its signals. */
  predicate Willing(a: Attempt, k: nat) {
    k < |a.cancels| &&
    match a.cancels[k]
    case CancelBegun => true
    case CancelMarked => true
    case CancelLoaded(_) => true
    case CancelSignalled(who) => !Matches(a, who)
    case CancelClearing(_) => true
    case _ => false
  }

  lemma CancelAdvances(a: Attempt, b: Attempt, k: nat)
    requires Willing(a, k) && b == Next(a, CancelStep(k, true))
    ensures Enabled(a, CancelStep(k, true)) && k < |b.cancels|
    ensures Confirmed(b) || (Willing(b, k) && Patience(b.cancels[k]) < Patience(a.cancels[k]))
    ensures a.agent != NotSpawned ==> b.agent != NotSpawned
  {
    assert b.cancels[k] == CancelAnswered(true) ==> Confirmed(b);
  }

  // ----- the unsafe crashes do happen

  const PREPARED := FRESH.(prepare := PrepareAnswered(true))

  predicate Preparable(a: Attempt) {
    && !a.tombstone && a.runner.RunUnsent? && a.agent == NotSpawned && a.cancels == []
    && match a.prepare
       case PrepareInFlight => true
       case PrepareBegun => true
       case PrepareLeased => true
       case PrepareWorking => true
       case PrepareLeaving(ok) => ok
       case PrepareAnswered(ok) => ok && a.lease == None
       case _ => false
  }

  function StepsLeft(p: Prepare): nat {
    match p
    case PrepareInFlight => 5
    case PrepareBegun => 4
    case PrepareLeased => 3
    case PrepareWorking => 2
    case PrepareLeaving(_) => 1
    case _ => 0
  }

  lemma PrepareStepAdvances(a: Attempt, b: Attempt)
    requires Preparable(a) && a != PREPARED && b == Next(a, PrepareStep(true))
    ensures Enabled(a, PrepareStep(true)) && Preparable(b) && StepsLeft(b.prepare) < StepsLeft(a.prepare)
  {}

  lemma {:induction false} ReachPrepared(a: Attempt, b: Attempt)
    requires Reaches(a, b) && Preparable(b)
    ensures Reaches(a, PREPARED)
    decreases StepsLeft(b.prepare)
  {
    if b != PREPARED {
      var c := Next(b, PrepareStep(true));
      PrepareStepAdvances(b, c);
      ReachesNext(a, b, PrepareStep(true));
      ReachPrepared(a, c);
    }
  }

  /** The helper has passed both tombstone checks. */
  predicate Cleared(a: Attempt) {
    a.runner.RunCleared? && a.lease == Some(RunHelper) && a.cancels == [] && a.agent == NotSpawned
  }

  lemma ReachSent()
    ensures Reaches(FRESH, PREPARED.(runner := RunInFlight))
  {
    ReachesSelf(FRESH);
    ReachesNext(FRESH, FRESH, SendPrepare);
    ReachPrepared(FRESH, Next(FRESH, SendPrepare));
    ReachesNext(FRESH, PREPARED, SendRun);
  }

  lemma {:induction false} ReachCleared(a: Attempt, b: Attempt) returns (c: Attempt)
    requires Reaches(a, b) && Inv(b) && !b.tombstone && b.cancels == []
    requires CanStillRun(b) && b.agent != Live
    ensures Reaches(a, c) && Inv(c) && Cleared(c)
    decreases Remaining(b.runner)
  {
    c := b;
    if !b.runner.RunCleared? {
      c := Next(b, RunStep(true));
      RunStepAdvances(b, c);
      ReachesNext(a, b, RunStep(true));
      c := ReachCleared(a, c);
    }
  }

  /** The race: a cancel helper reads the lease just before it is handed to the agent. */
  lemma LateCrash(a: Attempt, c: Attempt) returns (late: Attempt)
    requires Reaches(a, c) && Cleared(c)
    ensures Reaches(a, late) && Hazard(late, RunCrash) && late.lease == Some(AgentProcess)
  {
    var c1 := c.(cancels := [CancelBegun]);
    ReachesNext(a, c, SendCancel);
    var c2 := c1.(cancels := [CancelMarked], tombstone := true);
    ReachesNext(a, c1, CancelStep(0, true));
    var c3 := c2.(cancels := [CancelLoaded(RunHelper)]);
    ReachesNext(a, c2, CancelStep(0, true));
    var c4 := c3.(runner := RunSpawned, agent := Live);
    ReachesNext(a, c3, RunStep(true));
    late := c4.(runner := RunSupervising, lease := Some(AgentProcess));
    ReachesNext(a, c4, RunStep(true));
    assert Holds(late.cancels[0], RunHelper);
  }

  /** Both windows of `CrashSafe` are reachable.  In the second one the lease
      already names the agent; a cancel helper that read it just before does not know. */
  lemma UnsafeCrashesAreReachable() returns (early: Attempt, late: Attempt)
    ensures Reaches(FRESH, early) && Hazard(early, RunCrash) && early.lease == Some(RunHelper)
    ensures Reaches(FRESH, late) && Hazard(late, RunCrash) && late.lease == Some(AgentProcess)
  {
    ReachSent();
    var c := ReachCleared(FRESH, PREPARED.(runner := RunInFlight));
    ReachesNext(FRESH, c, RunStep(true));
    early := Next(c, RunStep(true));
    late := LateCrash(FRESH, c);
  }
}
