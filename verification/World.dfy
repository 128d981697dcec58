/** The whole scheduler: every issue at once, sharing one scheduler process. */
module World {
  import opened IssueRecords
  import opened ControlPlane
  import opened Containment
  import opened ContainmentSteps
  import T = ControlTheorems

  /** A step of one issue, or the death of the scheduler, which all issues share. */
  datatype WorldEvent = Of(issue: string, e: Event) | SchedulerCrash

  function InitWorld(issues: set<string>, ssh: set<Target>, home: Target): map<string, System> {
    map i | i in issues :: Init(ssh, home)
  }

  function WorldNext(w: map<string, System>, e: WorldEvent): map<string, System> {
    match e
    case Of(i, own) => if i in w && own != InLoop(Crash) then w[i := Next(w[i], own)] else w
    case SchedulerCrash => map i | i in w :: Next(w[i], InLoop(Crash))
  }

  predicate WorldHazard(w: map<string, System>, e: WorldEvent) {
    match e
    case Of(i, own) => i in w && own != InLoop(Crash) && Hazard(w[i], own)
    case SchedulerCrash => exists i | i in w :: Hazard(w[i], InLoop(Crash))
  }

  function WorldExec(w: map<string, System>, es: seq<WorldEvent>): map<string, System> {
    if es == [] then w else WorldNext(WorldExec(w, es[..|es| - 1]), es[|es| - 1])
  }

  predicate SafeWorldRun(w: map<string, System>, es: seq<WorldEvent>) {
    es == [] || (SafeWorldRun(w, es[..|es| - 1]) && !WorldHazard(WorldExec(w, es[..|es| - 1]), es[|es| - 1]))
  }

  ghost predicate WorldContained(w: map<string, System>) {
    forall i :: i in w ==> Contained(w[i])
  }

  lemma WorldStepContained(w: map<string, System>, e: WorldEvent)
    requires WorldContained(w) && !WorldHazard(w, e)
    ensures WorldContained(WorldNext(w, e)) && WorldNext(w, e).Keys == w.Keys
  {
    match e
    case Of(i, own) =>
      if i in w && own != InLoop(Crash) {
        StepContained(w[i], own);
      }
    case SchedulerCrash =>
      forall i | i in w
        ensures Contained(Next(w[i], InLoop(Crash)))
      {
        StepContained(w[i], InLoop(Crash));
      }
  }

  lemma {:induction false} WorldRunContained(w: map<string, System>, es: seq<WorldEvent>)
    requires WorldContained(w) && SafeWorldRun(w, es)
    ensures WorldContained(WorldExec(w, es)) && WorldExec(w, es).Keys == w.Keys
  {
    if es != [] {
      WorldRunContained(w, es[..|es| - 1]);
      WorldStepContained(WorldExec(w, es[..|es| - 1]), es[|es| - 1]);
    }
  }

  /** At every moment of every hazard-free run of the scheduler, each issue has at most
      one live agent over all targets and attempts, namely the one its record names. */
  lemma AtMostOneExecutorPerIssue(issues: set<string>, ssh: set<Target>, home: Target, es: seq<WorldEvent>,
                                  w: map<string, System>)
    requires SafeWorldRun(InitWorld(issues, ssh, home), es) && w == WorldExec(InitWorld(issues, ssh, home), es)
    ensures w.Keys == issues
    ensures forall i | i in w :: T.SoleExecutor(w[i]) && T.OnlyNamedLive(w[i])
  {
    var o := InitWorld(issues, ssh, home);
    forall i | i in o
      ensures Contained(o[i])
    {
      InitContained(ssh, home);
    }
    WorldRunContained(o, es);
    forall i | i in w
      ensures T.SoleExecutor(w[i]) && T.OnlyNamedLive(w[i])
    {
      T.AtMostOneLive(w[i]);
    }
  }
}
