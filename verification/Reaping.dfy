/**
 Why the answers the scheduler acts on are those the machine allows: a confirmed reap over
 SSH was confirmed by a cancel helper on the attempt's host, and a local identity that
 matches nothing any more is that of a process that is gone.
 */
module Reaping {
  import opened Wrappers
  import opened IssueRecords
  import C = ControlPlane
  import G = ProcessGuard
  import R = RemoteAttempt
  import Runner = RemoteRunner

  /** `SSHAgentBackend.reap`: the request may not arrive, and its answer may be lost. */
  method ReapOverSsh(host: Runner.ExecutionHost, id: string, arrives: bool, signalled: bool, answered: bool,
                     env: seq<seq<(string, R.Event)>>) returns (confirmed: bool)
    requires host.Valid() && |env| == 5
    modifies host
    ensures host.Valid()
    ensures confirmed ==> arrives && answered && R.Confirmed(host.View(id))
    ensures arrives && answered && signalled && Runner.SafeId(id) ==> confirmed
    ensures confirmed ==> forall es :: R.SafeRun(host.View(id), es) ==> R.Exec(host.View(id), es).agent != R.Live
  {
    confirmed := false;
    if arrives {
      var me := |host.View(id).cancels|;
      host.TakeStep(id, R.SendCancel);
      var result := host.Cancel(id, me, signalled, env);
      confirmed := answered && result == Runner.Answered(true);
    }
  }

  // ----- the reap of an attempt on an ssh target

  /** The system, with every attempt on ssh target `t` as its host sees it. */
  ghost function AsOnHost(s: C.System, t: Target, host: Runner.ExecutionHost): C.System
    reads host
  {
    s.(attempts := map id | id in s.attempts ::
         if s.attempts[id].target == t && s.attempts[id].side.RemoteSide?
         then s.attempts[id].(side := C.RemoteSide(host.View(id)))
         else s.attempts[id])
  }

  /** `_reap_state` of a record whose reap goes to an ssh target: the machine allows what is
      answered, because of what the host has become. */
  method ReapRemoteRecord(host: Runner.ExecutionHost, ghost s: C.System, r: IssueState, home: Target, arrives: bool,
                          signalled: bool, answered: bool, env: seq<seq<(string, R.Event)>>)
    returns (reap: Reap, ghost after: C.System)
    requires host.Valid() && |env| == 5 && s.home == home
    requires ReapAttempt(r).Some? && ReapTarget(r, home) in s.ssh
    modifies host
    ensures host.Valid() && after == AsOnHost(s, ReapTarget(r, home), host)
    ensures reap != Impossible && C.ReapAllowed(after, r, reap)
    ensures arrives && answered && signalled && Runner.SafeId(ReapAttempt(r).value) ==> reap == Confirmed
  {
    var confirmed := ReapOverSsh(host, ReapAttempt(r).value, arrives, signalled, answered, env);
    reap := if confirmed then Confirmed else Unconfirmed;
    after := AsOnHost(s, ReapTarget(r, home), host);
  }

  // ----- the reap of an agent of the scheduler's own machine

  /** The process of an agent. */
  datatype Agent = Agent(pid: nat, serial: nat)

  predicate Present(table: map<nat, G.Process>, a: Agent) {
    a.pid in table && table[a.pid].serial == a.serial
  }

  /** The system, with every local agent gone whose process is. */
  ghost function AsInTable(s: C.System, agents: map<string, Agent>, table: map<nat, G.Process>): C.System {
    s.(attempts := map id | id in s.attempts ::
         if s.attempts[id].side == C.LocalSide(R.Live) && id in agents && !Present(table, agents[id])
         then s.attempts[id].(side := C.LocalSide(R.Exited))
         else s.attempts[id])
  }

  /** If the evidence is of a live local agent, it was captured of its very process, and no pid
      was used again within the tolerance since. */
  ghost predicate Captured(s: C.System, p: ProcessIdentity, agents: map<string, Agent>, start: G.Host,
                           since: seq<G.Event>)
  {
    C.OnLocal(s, p.attemptId, R.Live) ==>
      && p.attemptId in agents && agents[p.attemptId].pid == p.pid
      && G.Consistent(start) && Present(start.table, agents[p.attemptId])
      && start.table[p.pid].birth == p.createTime && G.NoQuickReuse(start, since)
  }

  /** `_reap_state` of a record whose reap goes to a local target: the machine allows what is
      answered, because of what the process table has become. */
  method ReapLocalRecord(guard: G.Guard, ghost s: C.System, r: IssueState, home: Target, deaf: set<nat>,
                         ghost agents: map<string, Agent>, ghost start: G.Host, ghost since: seq<G.Event>)
    returns (reap: Reap, ghost after: C.System)
    requires s.home == home && ReapAttempt(r).Some? && ReapTarget(r, home) !in s.ssh
    requires guard.table == G.Exec(start, since).table
    requires (r.process.Some? ==> Captured(s, r.process.value, agents, start, since))
    modifies guard`table
    ensures after == AsInTable(s, agents, guard.table)
    ensures reap != Impossible && C.ReapAllowed(after, r, reap)
    ensures reap == Confirmed <==>
              match r.process
              case None => true
              case Some(p) =>
                && (p.hostId == "local" || p.hostId == ReapTarget(r, home))
                && (G.Matches(old(guard.table), G.Identity(p.pid, p.createTime, p.hostId)) ==>
                      p.pid != guard.ownPid && p.pid !in deaf)
  {
    var evidence := if r.process.None? then None
                    else Some(G.Identity(r.process.value.pid, r.process.value.createTime, r.process.value.hostId));
    var confirmed := guard.ReapLocal(ReapTarget(r, home), evidence, deaf);
    reap := if confirmed then Confirmed else Unconfirmed;
    after := AsInTable(s, agents, guard.table);
    if evidence.Some? && confirmed && C.OnLocal(s, r.process.value.attemptId, R.Live) {
      G.RememberedForever(start, since, evidence.value, agents[r.process.value.attemptId].serial);
    }
  }
}
