/** The agent configuration, its way over the wire, and the command line of a turn. */
module AgentRequest {
  import opened Wrappers
  import opened IssueRecords
  import opened ControlPlane
  import T = ControlTheorems

  datatype AgentConfig = AgentConfig(
    command: string,
    args: seq<string>,
    nativeResumeArgs: seq<string>,
    preferNativeResume: bool,
    outputFormat: string,
    sessionIdPaths: seq<string>,
    timeoutSeconds: real,
    cancelGraceSeconds: real,
    passEnv: seq<string>,
    env: map<string, string>,
    summaryChars: int)
  {
    predicate SupportsNativeResume() {
      preferNativeResume && nativeResumeArgs != []
    }
  }

  /** A value of the request's `agent` object. */
  datatype Wire =
    | Text(s: string)
    | Texts(l: seq<string>)
    | Flag(b: bool)
    | Number(r: real)
    | Whole(i: int)
    | Table(m: map<string, string>)

  /** `agent_payload` */
  function AgentPayload(c: AgentConfig): map<string, Wire> {
    map["command" := Text(c.command),
        "args" := Texts(c.args),
        "native_resume_args" := Texts(c.nativeResumeArgs),
        "prefer_native_resume" := Flag(c.preferNativeResume),
        "output_format" := Text(c.outputFormat),
        "session_id_paths" := Texts(c.sessionIdPaths),
        "timeout_seconds" := Number(c.timeoutSeconds),
        "cancel_grace_seconds" := Number(c.cancelGraceSeconds),
        "pass_env" := Texts(c.passEnv),
        "env" := Table(c.env),
        "summary_chars" := Whole(c.summaryChars)]
  }

  function TextAt(p: map<string, Wire>, key: string, default: string): string {
    if key in p && p[key].Text? then p[key].s else default
  }

  function TextsAt(p: map<string, Wire>, key: string, default: seq<string>): seq<string> {
    if key in p && p[key].Texts? then p[key].l else default
  }

  function FlagAt(p: map<string, Wire>, key: string, default: bool): bool {
    if key in p && p[key].Flag? then p[key].b else default
  }

  function NumberAt(p: map<string, Wire>, key: string, default: real): real {
    if key in p && p[key].Number? then p[key].r else default
  }

  function WholeAt(p: map<string, Wire>, key: string, default: int): int {
    if key in p && p[key].Whole? then p[key].i else default
  }

  /** `agent_from_payload`; None when the command is absent or `env` is not an object. */
  function AgentFromPayload(p: map<string, Wire>): Option<AgentConfig> {
    if "command" !in p || ("env" in p && !p["env"].Table?) then None
    else
      Some(AgentConfig(
             TextAt(p, "command", ""),
             TextsAt(p, "args", ["-p", "{prompt}"]),
             TextsAt(p, "native_resume_args", []),
             FlagAt(p, "prefer_native_resume", true),
             TextAt(p, "output_format", "auto"),
             TextsAt(p, "session_id_paths", ["session_id", "session.id"]),
             NumberAt(p, "timeout_seconds", 3600.0),
             NumberAt(p, "cancel_grace_seconds", 5.0),
             TextsAt(p, "pass_env", []),
             if "env" in p then p["env"].m else map[],
             WholeAt(p, "summary_chars", 8000)))
  }

  lemma WireRoundTrip(c: AgentConfig)
    ensures AgentFromPayload(AgentPayload(c)) == Some(c)
  {}

  /** The template `_arguments` renders; None is its ValueError. */
  function Template(c: AgentConfig, mode: Mode, session: Option<string>): Option<seq<string>> {
    if mode == NativeResume then
      if session.None? || session.value == "" || c.nativeResumeArgs == [] then None else Some(c.nativeResumeArgs)
    else Some(c.args)
  }

  // ----- every native resume is well formed

  /** Every mode of the run is chosen from the configuration of the attempt's target. */
  predicate FollowsConfig(s: System, es: seq<Event>, agents: map<Target, AgentConfig>) {
    es == [] ||
    (&& FollowsConfig(s, es[..|es| - 1], agents)
     && ModeFromConfig(Exec(s, es[..|es| - 1]), es[|es| - 1], agents))
  }

  predicate ModeFromConfig(s: System, e: Event, agents: map<Target, AgentConfig>) {
    match e
    case InStart(WorkspaceReady(_, supportsNative)) =>
      StartEnabled(s, e.b) ==>
        && s.attempts[s.task.id].target in agents
        && supportsNative == agents[s.attempts[s.task.id].target].SupportsNativeResume()
    case _ => true
  }

  /** The task is past the choice of its mode and has not finished. */
  predicate HasMode(s: System) {
    s.task.Launching? || s.task.Spawned? || s.task.Executing?
  }

  predicate HasSession(r: IssueState) {
    r.session.Some? && r.session.value.text != ""
  }

  /** The mode is the right one for the record and the configuration: first before any attempt
      has ended, native when there is a session and the target can resume it, else stateless. */
  predicate ModeFits(s: System, agents: map<Target, AgentConfig>) {
    HasMode(s) ==>
      && s.task.id in s.attempts && s.attempts[s.task.id].target in agents
      && (s.task.mode == First <==> Own(s).totalAttempts == 0)
      && (s.task.mode == NativeResume
          <==> Own(s).totalAttempts > 0 && HasSession(Own(s))
               && agents[s.attempts[s.task.id].target].SupportsNativeResume())
  }

  lemma ModeStaysInStart(s: System, t: System, b: StartEvent, agents: map<Target, AgentConfig>)
    requires ModeFits(s, agents) && StartEnabled(s, b) && ModeFromConfig(s, InStart(b), agents)
    requires t == StartStep(s, b)
    ensures ModeFits(t, agents)
  {}

  lemma ModeStaysInFinish(s: System, t: System, f: FinishEvent, agents: map<Target, AgentConfig>)
    requires ModeFits(s, agents) && FinishEnabled(s, f) && t == FinishStep(s, f)
    ensures ModeFits(t, agents)
  {}

  lemma ModeStaysOnTarget(s: System, t: System, e: TargetEvent, agents: map<Target, AgentConfig>)
    requires ModeFits(s, agents) && TargetEnabled(s, e) && t == TargetStep(s, e)
    ensures ModeFits(t, agents)
  {}

  lemma ModeStaysInLoop(s: System, t: System, l: LoopEvent, agents: map<Target, AgentConfig>)
    requires ModeFits(s, agents) && LoopEnabled(s, l) && t == LoopStep(s, l)
    ensures ModeFits(t, agents)
  {}

  lemma ModeStays(s: System, t: System, e: Event, agents: map<Target, AgentConfig>)
    requires ModeFits(s, agents) && ModeFromConfig(s, e, agents) && t == Next(s, e)
    ensures ModeFits(t, agents)
  {
    if Enabled(s, e) {
      match e
      case OnTarget(te) => ModeStaysOnTarget(s, t, te, agents);
      case InStart(b) => ModeStaysInStart(s, t, b, agents);
      case InFinish(f) => ModeStaysInFinish(s, t, f, agents);
      case InLoop(l) => ModeStaysInLoop(s, t, l, agents);
    }
  }

  lemma {:induction false} ModeStaysForever(s: System, es: seq<Event>, agents: map<Target, AgentConfig>)
    requires ModeFits(s, agents) && FollowsConfig(s, es, agents)
    ensures ModeFits(Exec(s, es), agents)
  {
    if es != [] {
      ModeStaysForever(s, es[..|es| - 1], agents);
      ModeStays(Exec(s, es[..|es| - 1]), Exec(s, es), es[|es| - 1], agents);
    }
  }

  /** In every run whose modes follow the configurations, lapses and hazards included, the mode
      of a task that launches or executes is exactly the one its record and its target call for. */
  lemma ModesAreExact(ssh: set<Target>, home: Target, es: seq<Event>, agents: map<Target, AgentConfig>, s: System)
    requires FollowsConfig(Init(ssh, home), es, agents) && s == Exec(Init(ssh, home), es)
    ensures ModeFits(s, agents)
  {
    ModeStaysForever(Init(ssh, home), es, agents);
  }

  /** The session and the templates of a task in native mode, with the configuration of its
      target and with the copy the remote helper decodes. */
  ghost predicate ResumesWell(s: System, agents: map<Target, AgentConfig>, attempt: string) {
    && T.OwnSession(s, attempt) && s.attempts[attempt].target in agents
    && var c, session := agents[s.attempts[attempt].target], Some(s.rec.session.value.text);
       && AgentFromPayload(AgentPayload(c)).Some?
       && Template(c, NativeResume, session) == Some(c.nativeResumeArgs)
       && Template(AgentFromPayload(AgentPayload(c)).value, NativeResume, session) == Some(c.nativeResumeArgs)
  }

  /** In every orderly run whose modes follow the configurations, a task in native mode has a
      session from the very target of its attempt, and `_arguments` finds its template. */
  lemma ModesAreWellFormed(ssh: set<Target>, home: Target, es: seq<Event>, agents: map<Target, AgentConfig>, s: System)
    requires OrderlyRun(Init(ssh, home), es) && FollowsConfig(Init(ssh, home), es, agents)
    requires s == Exec(Init(ssh, home), es)
    ensures HasMode(s) && s.task.mode == NativeResume ==> ResumesWell(s, agents, s.task.id)
  {
    assert ReachesOrderly(Init(ssh, home), s);
    T.NativeResumeHasSession(ssh, home, s);
    ModeStaysForever(Init(ssh, home), es, agents);
    if HasMode(s) && s.task.mode == NativeResume {
      WireRoundTrip(agents[s.attempts[s.task.id].target]);
    }
  }
}
