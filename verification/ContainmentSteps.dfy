/** Containment is kept by every step that is not a hazard, and so in every safe run. */
module ContainmentSteps {
  import opened ControlPlane
  import opened Containment
  import opened LoopContainment
  import opened TaskContainment

  lemma StepContained(s: System, e: Event)
    requires Contained(s) && !Hazard(s, e)
    ensures Contained(Next(s, e))
  {
    if Enabled(s, e) {
      var t := Next(s, e);
      match e
      case OnTarget(HostStep(id, pe)) => HostStepContained(s, t, id, pe);
      case OnTarget(LocalExit(id)) => LocalExitContained(s, t, id);
      case InStart(b) => StartContained(s, t, b);
      case InFinish(f) => FinishContained(s, t, f);
      case InLoop(l) => LoopContained(s, t, l);
    }
  }

  /** Every state of a safe run is contained. */
  lemma {:induction false} RunContained(s: System, es: seq<Event>)
    requires Contained(s) && SafeRun(s, es)
    ensures Contained(Exec(s, es))
  {
    if es != [] {
      RunContained(s, es[..|es| - 1]);
      StepContained(Exec(s, es[..|es| - 1]), es[|es| - 1]);
    }
  }
}
