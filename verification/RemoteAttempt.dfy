/**
 One attempt as its execution host sees it: the lease file, the cancellation
 tombstone, the two helper processes the scheduler starts over SSH, the agent
 process, and any number of concurrent cancel helpers.

 Lease and tombstone files are keyed by attempt id, so a host is a collection of
 independent copies of this machine.  A process is named by its birth identity;
 one attempt starts at most one helper per operation and one agent, so the
 three birth identities of an attempt are the three values of `Who`.
 */
module RemoteAttempt {
  import opened Wrappers

  datatype Who = PrepareHelper | RunHelper | AgentProcess

  /** Program counter of the helper serving the `prepare` request. */
  datatype Prepare =
    | PrepareUnsent
    | PrepareInFlight
    | PrepareBegun                // process started, no lease yet
    | PrepareLeased               // lease saved, tombstone not yet read
    | PrepareWorking              // tombstone was absent
    | PrepareLeaving(ok: bool)    // about to remove the lease
    | PrepareAnswered(ok: bool)
    | PrepareCrashed

  /** Program counter of the helper serving the `run` request. */
  datatype Runner =
    | RunUnsent
    | RunInFlight
    | RunBegun
    | RunLeased                   // first lease saved, tombstone not yet read
    | RunPreparing                // first check passed
    | RunRenewed                  // second lease saved, tombstone not yet read
    | RunCleared                  // second check passed, agent not yet spawned
    | RunSpawned                  // agent spawned, lease still names the helper
    | RunSupervising              // waiting for the agent
    | RunLeaving(ok: bool)        // about to remove the lease
    | RunAnswered(ok: bool)
    | RunCrashed

  datatype Agent = NotSpawned | Live | Exited

  /** Program counter of one helper serving a `cancel` request. */
  datatype Canceller =
    | CancelBegun
    | CancelMarked                // tombstone written
    | CancelLoaded(who: Who)      // identity read from the lease
    | CancelSignalled(who: Who)   // matched and signalled, or found dead
    | CancelClearing(who: Who)    // re-check found it dead; about to remove the lease
    | CancelAnswered(confirmed: bool)
    | CancelCrashed

  datatype Attempt = Attempt(
    lease: Option<Who>,
    tombstone: bool,
    prepare: Prepare,
    runner: Runner,
    agent: Agent,
    cancels: seq<Canceller>)

  const FRESH := Attempt(None, false, PrepareUnsent, RunUnsent, NotSpawned, [])

  datatype Event =
    | SendPrepare
    | PrepareStep(ok: bool)
    | PrepareCrash
    | SendRun
    | RunStep(ok: bool)
    | RunFault                    // an exception before the agent exists
    | RunCrash                    // the helper process dies without its `finally`
    | AgentExit
    | SendCancel
    | CancelStep(k: nat, killed: bool)
    | CancelCrash(k: nat)

  predicate RunnerAlive(r: Runner) {
    !(r.RunUnsent? || r.RunInFlight? || r.RunAnswered? || r.RunCrashed?)
  }

  predicate PrepareAlive(p: Prepare) {
    !(p.PrepareUnsent? || p.PrepareInFlight? || p.PrepareAnswered? || p.PrepareCrashed?)
  }

  /** `ProcessGuard.matches`: is the process born with this identity still there? */
  predicate Matches(a: Attempt, who: Who) {
    match who
    case PrepareHelper => PrepareAlive(a.prepare)
    case RunHelper => RunnerAlive(a.runner)
    case AgentProcess => a.agent == Live
  }

  /** The process was started; it lives or is gone for good. */
  predicate Begun(a: Attempt, who: Who) {
    match who
    case PrepareHelper => !a.prepare.PrepareUnsent? && !a.prepare.PrepareInFlight?
    case RunHelper => !a.runner.RunUnsent? && !a.runner.RunInFlight?
    case AgentProcess => a.agent != NotSpawned
  }

  predicate Gone(a: Attempt, who: Who) {
    Begun(a, who) && !Matches(a, who)
  }

  /** `ProcessGuard.terminate_tree`: the process and its live descendants. */
  function KillTree(a: Attempt, who: Who): Attempt {
    if !Matches(a, who) then a else
    match who
    case PrepareHelper => a.(prepare := PrepareCrashed)
    case RunHelper => a.(runner := RunCrashed, agent := if a.agent == Live then Exited else a.agent)
    case AgentProcess => a.(agent := Exited)
  }

  function PrepareNext(a: Attempt, ok: bool): Attempt {
    match a.prepare
    case PrepareInFlight => a.(prepare := PrepareBegun)
    case PrepareBegun =>
      if ok then a.(lease := Some(PrepareHelper), prepare := PrepareLeased)
      else a.(prepare := PrepareAnswered(false))
    case PrepareLeased =>
      a.(prepare := if a.tombstone then PrepareLeaving(false) else PrepareWorking)
    case PrepareWorking => a.(prepare := PrepareLeaving(ok))
    case PrepareLeaving(done) => a.(lease := None, prepare := PrepareAnswered(done))
    case _ => a
  }

  predicate RunEnabled(a: Attempt, ok: bool) {
    match a.runner
    case RunUnsent => false
    case RunAnswered(_) => false
    case RunCrashed => false
    case RunSpawned => ok || a.agent == Exited  // the identity is unavailable only once the agent is gone
    case RunSupervising => a.agent == Exited
    case _ => true
  }

  function RunNext(a: Attempt, ok: bool): Attempt {
    match a.runner
    case RunInFlight => a.(runner := RunBegun)
    case RunBegun => a.(lease := Some(RunHelper), runner := RunLeased)
    case RunLeased => a.(runner := if a.tombstone then RunLeaving(true) else RunPreparing)
    case RunPreparing =>
      if ok then a.(lease := Some(RunHelper), runner := RunRenewed) else a.(runner := RunLeaving(false))
    case RunRenewed => a.(runner := if a.tombstone then RunLeaving(true) else RunCleared)
    case RunCleared =>
      if ok then a.(runner := RunSpawned, agent := Live) else a.(runner := RunLeaving(true))
    case RunSpawned =>
      if ok then a.(lease := Some(AgentProcess), runner := RunSupervising)
      else a.(runner := RunSupervising)
    case RunSupervising => a.(runner := RunLeaving(true))
    case RunLeaving(done) => a.(lease := None, runner := RunAnswered(done))
    case _ => a
  }

  predicate FaultEnabled(a: Attempt) {
    match a.runner
    case RunBegun => true
    case RunLeased => true
    case RunPreparing => true
    case RunRenewed => true
    case RunCleared => true
    case _ => false
  }

  function RunFaulted(a: Attempt): Attempt {
    a.(runner := if a.runner.RunBegun? then RunAnswered(false) else RunLeaving(false))
  }

  function CancelNext(a: Attempt, k: nat, killed: bool): Attempt
    requires k < |a.cancels|
  {
    match a.cancels[k]
    case CancelBegun => a.(tombstone := true, cancels := a.cancels[k := CancelMarked])
    case CancelMarked =>
      a.(cancels := a.cancels[k := if a.lease.None? then CancelAnswered(true) else CancelLoaded(a.lease.value)])
    case CancelLoaded(who) =>
      var b := if killed then KillTree(a, who) else a;
      b.(cancels := a.cancels[k := CancelSignalled(who)])
    case CancelSignalled(who) =>
      a.(cancels := a.cancels[k := if Matches(a, who) then CancelAnswered(false) else CancelClearing(who)])
    case CancelClearing(who) => a.(lease := None, cancels := a.cancels[k := CancelAnswered(true)])
    case _ => a
  }

  predicate Enabled(a: Attempt, e: Event) {
    match e
    case SendPrepare => a.prepare.PrepareUnsent?
    case PrepareStep(_) => a.prepare.PrepareInFlight? || PrepareAlive(a.prepare)
    case PrepareCrash => PrepareAlive(a.prepare)
    // The scheduler sends `run` only after `prepare` answered with a workspace.
    case SendRun => a.runner.RunUnsent? && a.prepare == PrepareAnswered(true)
    case RunStep(ok) => RunEnabled(a, ok)
    case RunFault => FaultEnabled(a)
    case RunCrash => RunnerAlive(a.runner)
    case AgentExit => a.agent == Live
    case SendCancel => true
    case CancelStep(k, _) => k < |a.cancels| && !a.cancels[k].CancelAnswered? && !a.cancels[k].CancelCrashed?
    case CancelCrash(k) => k < |a.cancels| && !a.cancels[k].CancelAnswered?
  }

  function Step(a: Attempt, e: Event): Attempt
    requires Enabled(a, e)
  {
    match e
    case SendPrepare => a.(prepare := PrepareInFlight)
    case PrepareStep(ok) => PrepareNext(a, ok)
    case PrepareCrash => a.(prepare := PrepareCrashed)
    case SendRun => a.(runner := RunInFlight)
    case RunStep(ok) => RunNext(a, ok)
    case RunFault => RunFaulted(a)
    case RunCrash => a.(runner := RunCrashed)
    case AgentExit => a.(agent := Exited)
    case SendCancel => a.(cancels := a.cancels + [CancelBegun])
    case CancelStep(k, killed) => CancelNext(a, k, killed)
    case CancelCrash(k) => a.(cancels := a.cancels[k := CancelCrashed])
  }

  /** An event that cannot happen changes nothing. */
  function Next(a: Attempt, e: Event): Attempt {
    if Enabled(a, e) then Step(a, e) else a
  }

  // ----- what the protocol is for

  /** Some cancel helper has answered `confirmed_safe`. */
  predicate Confirmed(a: Attempt) {
    exists k :: 0 <= k < |a.cancels| && a.cancels[k] == CancelAnswered(true)
  }

  /** The agent runs, or its helper has passed every check before the spawn. */
  predicate Threat(a: Attempt) {
    a.runner.RunCleared? || a.agent == Live
  }

  /** An agent is running or the helper can still start one. */
  predicate CanStillRun(a: Attempt) {
    || Threat(a)
    || (!a.tombstone && (a.runner.RunInFlight? || a.runner.RunBegun? || a.runner.RunLeased?
                         || a.runner.RunPreparing? || a.runner.RunRenewed?))
  }

  /** The lease names the live agent itself, or its live parent helper. */
  predicate Covered(a: Attempt) {
    && a.lease.Some?
    && (a.lease.value == AgentProcess || (a.lease.value == RunHelper && RunnerAlive(a.runner)))
  }

  predicate Holds(c: Canceller, who: Who) {
    match c
    case CancelLoaded(w) => w == who
    case CancelSignalled(w) => w == who
    case CancelClearing(w) => w == who
    case _ => false
  }

  predicate SomeCancellerHolds(a: Attempt, who: Who) {
    exists k :: 0 <= k < |a.cancels| && Holds(a.cancels[k], who)
  }

  /** The helper may die here without uncovering a live agent: the lease already
      names the agent, and no cancel helper is about to judge the agent by the helper. */
  predicate CrashSafe(a: Attempt) {
    a.agent == Live ==> a.lease == Some(AgentProcess) && !SomeCancellerHolds(a, RunHelper)
  }

  predicate Hazard(a: Attempt, e: Event) {
    e.RunCrash? && RunnerAlive(a.runner) && !CrashSafe(a)
  }

  // ----- runs

  function Exec(a: Attempt, es: seq<Event>): Attempt {
    if es == [] then a else Next(Exec(a, es[..|es| - 1]), es[|es| - 1])
  }

  /** No event of the run is a hazard in the state it meets. */
  predicate SafeRun(a: Attempt, es: seq<Event>) {
    es == [] || (SafeRun(a, es[..|es| - 1]) && !Hazard(Exec(a, es[..|es| - 1]), es[|es| - 1]))
  }

  ghost predicate Reaches(a: Attempt, b: Attempt) {
    exists es :: SafeRun(a, es) && Exec(a, es) == b
  }

  // ----- the inductive invariant

  /** What a cancel helper may be doing while an agent runs or may yet be spawned. */
  predicate Harmless(a: Attempt, c: Canceller) {
    match c
    case CancelLoaded(w) => w != PrepareHelper && Matches(a, w)
    case CancelSignalled(w) => w != PrepareHelper && Matches(a, w)
    case CancelClearing(_) => false
    case CancelAnswered(confirmed) => !confirmed
    case _ => true
  }

  /** A cancel helper never holds the identity of a process that is still to come. */
  predicate JudgesBegun(a: Attempt, c: Canceller) {
    match c
    case CancelLoaded(w) => Begun(a, w)
    case CancelSignalled(w) => Begun(a, w)
    case CancelClearing(w) => Begun(a, w)
    case _ => true
  }

  predicate Unmarked(c: Canceller) {
    c.CancelBegun? || c.CancelCrashed?
  }

  ghost predicate Inv(a: Attempt) {
    // `run` follows an answered `prepare`, whose lease is gone by then.
    && (!a.runner.RunUnsent? ==> a.prepare == PrepareAnswered(true))
    // The agent exists exactly from the spawn on.
    && ((a.runner.RunUnsent? || a.runner.RunInFlight? || a.runner.RunBegun? || a.runner.RunLeased?
         || a.runner.RunPreparing? || a.runner.RunRenewed? || a.runner.RunCleared?) ==> a.agent == NotSpawned)
    && ((a.runner.RunSpawned? || a.runner.RunSupervising?) ==> a.agent != NotSpawned)
    && ((a.runner.RunLeaving? || a.runner.RunAnswered?) ==> a.agent != Live)
    // Lease contents.
    && (a.lease.Some? ==> Begun(a, a.lease.value))
    && (forall k :: 0 <= k < |a.cancels| ==> JudgesBegun(a, a.cancels[k]))
    && (a.runner.RunCleared? ==> a.lease == Some(RunHelper))
    && (a.agent == Live ==> Covered(a))
    && (!a.tombstone && (a.runner.RunLeased? || a.runner.RunPreparing? || a.runner.RunRenewed?)
        ==> a.lease == Some(RunHelper))
    // Flag discipline: the tombstone precedes everything a cancel helper does.
    && (!a.tombstone ==> forall k :: 0 <= k < |a.cancels| ==> Unmarked(a.cancels[k]))
    && (Threat(a) ==> forall k :: 0 <= k < |a.cancels| ==> Harmless(a, a.cancels[k]))
  }

  lemma FreshInv()
    ensures Inv(FRESH)
  {}

  lemma PrepareKeepsInv(a: Attempt, ok: bool)
    requires Inv(a) && Enabled(a, PrepareStep(ok))
    ensures Inv(PrepareNext(a, ok))
  {}

  lemma RunKeepsInv(a: Attempt, ok: bool)
    requires Inv(a) && RunEnabled(a, ok)
    ensures Inv(RunNext(a, ok))
  {}

  lemma CancelKeepsInv(a: Attempt, k: nat, killed: bool)
    requires Inv(a) && Enabled(a, CancelStep(k, killed))
    ensures Inv(CancelNext(a, k, killed))
  {}

  lemma StepKeepsInv(a: Attempt, e: Event)
    requires Inv(a) && !Hazard(a, e)
    ensures Inv(Next(a, e))
  {
    if Enabled(a, e) {
      match e
      case PrepareStep(ok) => PrepareKeepsInv(a, ok);
      case RunStep(ok) => RunKeepsInv(a, ok);
      case CancelStep(k, killed) => CancelKeepsInv(a, k, killed);
      case _ =>
    }
  }
}
