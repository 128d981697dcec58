/**
 The remote helper's operations as the source writes them, over the files and
 processes of one execution host.  Between any two effects of an operation the
 rest of the host may do anything: `Interfere` plays an arbitrary schedule of the
 other helpers, of agents exiting, of crashes and of requests arriving.
 */
module RemoteRunner {
  import opened Wrappers
  import opened RemoteAttempt
  import Theorems = RemoteTheorems

  datatype Lease = Lease(targetId: string, attemptId: string, identity: Who)

  /** The processes of one attempt. */
  datatype Processes = Processes(prepare: Prepare, runner: Runner, agent: Agent, cancels: seq<Canceller>)

  const NO_PROCESSES := Processes(PrepareUnsent, RunUnsent, NotSpawned, [])

  /** The operation being executed: nobody else takes its steps. */
  datatype Role = Preparing | Running | Cancelling(k: nat)

  predicate Mine(role: Role, e: Event) {
    match e
    case PrepareStep(_) => role.Preparing?
    case RunStep(_) => role.Running?
    case RunFault => role.Running?
    case CancelStep(k, _) => role == Cancelling(k)
    case CancelCrash(k) => role == Cancelling(k)
    case _ => false
  }

  /** What the operation `role` can rely on while others run. */
  predicate Undisturbed(role: Role, a: Attempt, b: Attempt) {
    && (a.tombstone ==> b.tombstone) && (forall who :: Gone(a, who) ==> Gone(b, who))
    && match role
       case Preparing => PrepareAlive(a.prepare) ==> b.prepare == a.prepare || b.prepare == PrepareCrashed
       case Running =>
         RunnerAlive(a.runner) ==>
           && (b.runner == a.runner || b.runner == RunCrashed)
           && (a.agent == NotSpawned ==> b.agent == NotSpawned)
           && (a.agent == Live ==> b.agent != NotSpawned)
           && (a.agent == Exited ==> b.agent == Exited)
       case Cancelling(k) => k < |a.cancels| ==> k < |b.cancels| && b.cancels[k] == a.cancels[k]
  }

  /** A process that is gone stays gone. */
  lemma GoneStays(b: Attempt, e: Event, who: Who)
    requires Inv(b) && Gone(b, who)
    ensures Gone(Next(b, e), who)
  {}

  lemma OthersDoNotDisturb(role: Role, a: Attempt, b: Attempt, e: Event)
    requires Inv(b) && Undisturbed(role, a, b) && !Mine(role, e)
    ensures Undisturbed(role, a, Next(b, e))
  {
    forall who | Gone(a, who)
      ensures Gone(Next(b, e), who)
    {
      GoneStays(b, e, who);
    }
  }

  /** Nobody else on the host takes a step meanwhile. */
  predicate Alone(env: seq<seq<(string, Event)>>) {
    forall n :: 0 <= n < |env| ==> env[n] == []
  }

  datatype CancelResult = Refused | Answered(confirmed: bool)
  datatype PrepareResult = PrepareRefused | PrepareKilled | PrepareError | Prepared

  datatype RunResult = RunRefused | Killed | RunError | Returned(launched: bool)

  predicate Alphanumeric(c: char) {
    'A' <= c <= 'Z' || 'a' <= c <= 'z' || '0' <= c <= '9'
  }

  predicate SafeId(s: string) {
    && 1 <= |s| <= 128
    && Alphanumeric(s[0])
    && forall i :: 1 <= i < |s| ==> Alphanumeric(s[i]) || s[i] == '.' || s[i] == '_' || s[i] == '-'
  }

  predicate LowerHex(c: char) {
    'a' <= c <= 'f' || '0' <= c <= '9'
  }

  /** The text of a UUID. */
  predicate Uuid(s: string) {
    |s| == 36 &&
    forall i :: 0 <= i < 36 ==> if i == 8 || i == 13 || i == 18 || i == 23 then s[i] == '-' else LowerHex(s[i])
  }

  /** Every attempt id the scheduler makes is accepted, and no accepted id names a file
      outside the directory of the leases. */
  lemma AcceptedIds(s: string)
    ensures Uuid(s) ==> SafeId(s)
    ensures SafeId(s) ==> s != "" && '/' !in s && s != "." && s != ".."
  {
    if SafeId(s) {
      assert forall i :: 0 <= i < |s| ==> s[i] != '/';
    }
  }

  class ExecutionHost {
    const targetId: string
    var leases: map<string, Lease>
    var cancellations: map<string, string>
    var processes: map<string, Processes>

    constructor (targetId: string)
      ensures Valid() && this.targetId == targetId && forall id :: View(id) == FRESH
    {
      this.targetId := targetId;
      leases, cancellations, processes := map[], map[], map[];
    }

    function Procs(id: string): Processes
      reads this
    {
      if id in processes then processes[id] else NO_PROCESSES
    }

    /** The host as attempt `id` sees it. */
    function View(id: string): Attempt
      reads this
    {
      var p := Procs(id);
      Attempt(if id in leases then Some(leases[id].identity) else None,
              id in cancellations && cancellations[id] == targetId,
              p.prepare, p.runner, p.agent, p.cancels)
    }

    /** Every file belongs to this target and is named after its attempt. */
    ghost predicate OwnFiles()
      reads this
    {
      && (forall id :: id in leases ==> leases[id].targetId == targetId && leases[id].attemptId == id)
      && (forall id :: id in cancellations ==> cancellations[id] == targetId)
    }

    ghost predicate Sound(id: string)
      reads this
    {
      Inv(View(id))
    }

    ghost predicate Valid()
      reads this
    {
      OwnFiles() && forall id :: Sound(id)
    }

    /** The host took step `e` of attempt `id`, and no other attempt changed. */
    twostate predicate Stepped(id: string, e: Event)
      reads this
    {
      && OwnFiles()
      && View(id) == Next(old(View(id)), e)
      && forall i :: i != id ==> View(i) == old(View(i))
    }

    twostate lemma Untouched(id: string)
      requires old(Valid()) && forall i :: i != id ==> View(i) == old(View(i))
      ensures forall i :: i != id ==> Sound(i)
    {
      forall i | i != id
        ensures Sound(i)
      {
        assert old(Sound(i));
      }
    }

    lemma SoundAfter(id: string, before: Attempt, e: Event)
      requires OwnFiles() && Inv(before) && !Hazard(before, e) && View(id) == Next(before, e)
      requires forall i :: i != id ==> Sound(i)
      ensures Valid()
    {
      StepKeepsInv(before, e);
      assert Sound(id);
    }

    // ----- LeaseStore: every call is one file operation

    /** The lease of this attempt names the identity from now on; no other attempt sees a
        difference, and every lease stays with its own attempt and target. */
    method SaveLease(id: string, identity: Who)
      modifies this`leases
      ensures View(id) == old(View(id)).(lease := Some(identity))
      ensures forall i :: i != id ==> View(i) == old(View(i))
      ensures old(OwnFiles()) ==> OwnFiles()
    {
      leases := leases[id := Lease(targetId, id, identity)];
    }

    /** The identity the protocol sees in the lease, if it sees one, and in a lease of this attempt. */
    method LoadLease(id: string) returns (lease: Option<Lease>)
      ensures View(id).lease == if lease.None? then None else Some(lease.value.identity)
      ensures OwnFiles() && lease.Some? ==> lease.value.targetId == targetId && lease.value.attemptId == id
    {
      lease := if id in leases then Some(leases[id]) else None;
    }

    /** The attempt has no lease any more; no other attempt loses its own. */
    method RemoveLease(id: string)
      modifies this`leases
      ensures View(id) == old(View(id)).(lease := None)
      ensures forall i :: i != id ==> View(i) == old(View(i))
      ensures old(OwnFiles()) ==> OwnFiles()
    {
      leases := leases - {id};
    }

    /** The attempt has a tombstone of this target, and no other attempt gets one. */
    method MarkCancelled(id: string)
      modifies this`cancellations
      ensures View(id) == old(View(id)).(tombstone := true)
      ensures forall i :: i != id ==> View(i) == old(View(i))
      ensures old(OwnFiles()) ==> OwnFiles()
    {
      cancellations := cancellations[id := targetId];
    }

    method IsCancelled(id: string) returns (cancelled: bool)
      ensures cancelled == View(id).tombstone
    {
      cancelled := id in cancellations && cancellations[id] == targetId;
    }

    /** The processes of this attempt become those of `a`; its files, and every other attempt, stay. */
    method SetProcesses(id: string, a: Attempt)
      modifies this`processes
      ensures View(id) == a.(lease := old(View(id)).lease, tombstone := old(View(id)).tombstone)
      ensures forall i :: i != id ==> View(i) == old(View(i))
      ensures old(OwnFiles()) ==> OwnFiles()
    {
      processes := processes[id := Processes(a.prepare, a.runner, a.agent, a.cancels)];
    }

    // ----- the rest of the host

    method WriteBack(id: string, a: Attempt)
      requires OwnFiles()
      modifies this
      ensures OwnFiles() && View(id) == a && forall i :: i != id ==> View(i) == old(View(i))
    {
      leases := if a.lease.Some? then leases[id := Lease(targetId, id, a.lease.value)] else leases - {id};
      cancellations := if a.tombstone then cancellations[id := targetId] else cancellations - {id};
      SetProcesses(id, a);
    }

    method TakeStep(id: string, e: Event)
      requires Valid() && !Hazard(View(id), e)
      modifies this
      ensures Valid() && Stepped(id, e)
    {
      WriteBack(id, Next(View(id), e));
      Untouched(id);
      assert old(Sound(id));
      SoundAfter(id, old(View(id)), e);
    }

    /** Everyone else runs for a while: steps of `role` on `id`, and hazards, are skipped. */
    method Interfere(id: string, role: Role, schedule: seq<(string, Event)>)
      requires Valid()
      modifies this
      ensures Valid() && Undisturbed(role, old(View(id)), View(id))
      ensures schedule == [] ==> View(id) == old(View(id))
    {
      for n := 0 to |schedule|
        invariant Valid() && Undisturbed(role, old(View(id)), View(id))
        invariant n == 0 ==> View(id) == old(View(id))
      {
        var (i, e) := schedule[n];
        if !(i == id && Mine(role, e)) && !Hazard(View(i), e) {
          if i == id {
            assert Sound(id);
            OthersDoNotDisturb(role, old(View(id)), View(id), e);
          }
          TakeStep(i, e);
        }
      }
    }

    // ----- the effects of `_cancel`, one by one

    method Mark(id: string, me: nat)
      requires Valid() && me < |View(id).cancels| && View(id).cancels[me] == CancelBegun
      modifies this
      ensures Valid() && Stepped(id, CancelStep(me, true))
    {
      MarkCancelled(id);
      SetProcesses(id, View(id).(cancels := View(id).cancels[me := CancelMarked]));
      Untouched(id);
      assert old(Sound(id));
      SoundAfter(id, old(View(id)), CancelStep(me, true));
    }

    method Load(id: string, me: nat) returns (identity: Option<Who>)
      requires Valid() && me < |View(id).cancels| && View(id).cancels[me] == CancelMarked
      modifies this
      ensures Valid() && Stepped(id, CancelStep(me, true))
      ensures identity == old(View(id)).lease
    {
      var lease := LoadLease(id);
      var c := if lease.None? then CancelAnswered(true) else CancelLoaded(lease.value.identity);
      identity := if lease.None? then None else Some(lease.value.identity);
      SetProcesses(id, View(id).(cancels := View(id).cancels[me := c]));
      Untouched(id);
      assert old(Sound(id));
      SoundAfter(id, old(View(id)), CancelStep(me, true));
    }

    method Signal(id: string, me: nat, identity: Who, signalled: bool)
      requires Valid() && me < |View(id).cancels| && View(id).cancels[me] == CancelLoaded(identity)
      modifies this
      ensures Valid() && Stepped(id, CancelStep(me, signalled))
    {
      if Matches(View(id), identity) && signalled {
        SetProcesses(id, KillTree(View(id), identity));
      }
      SetProcesses(id, View(id).(cancels := View(id).cancels[me := CancelSignalled(identity)]));
      Untouched(id);
      assert old(Sound(id));
      SoundAfter(id, old(View(id)), CancelStep(me, signalled));
    }

    method Recheck(id: string, me: nat, identity: Who) returns (gone: bool)
      requires Valid() && me < |View(id).cancels| && View(id).cancels[me] == CancelSignalled(identity)
      modifies this
      ensures Valid() && Stepped(id, CancelStep(me, true))
      ensures gone == !Matches(old(View(id)), identity)
    {
      gone := !Matches(View(id), identity);
      var c := if gone then CancelClearing(identity) else CancelAnswered(false);
      SetProcesses(id, View(id).(cancels := View(id).cancels[me := c]));
      Untouched(id);
      assert old(Sound(id));
      SoundAfter(id, old(View(id)), CancelStep(me, true));
    }

    method Clear(id: string, me: nat)
      requires Valid() && me < |View(id).cancels| && View(id).cancels[me].CancelClearing?
      modifies this
      ensures Valid() && Stepped(id, CancelStep(me, true))
    {
      RemoveLease(id);
      SetProcesses(id, View(id).(cancels := View(id).cancels[me := CancelAnswered(true)]));
      Untouched(id);
      assert old(Sound(id));
      SoundAfter(id, old(View(id)), CancelStep(me, true));
    }

    method MarkNext(id: string, me: nat, schedule: seq<(string, Event)>)
      requires Valid() && me < |View(id).cancels| && View(id).cancels[me] == CancelBegun
      modifies this
      ensures Valid() && View(id).tombstone && me < |View(id).cancels| && View(id).cancels[me] == CancelMarked
    {
      Interfere(id, Cancelling(me), schedule);
      Mark(id, me);
    }

    method MarkAndLoad(id: string, me: nat, env: seq<seq<(string, Event)>>) returns (identity: Option<Who>)
      requires Valid() && |env| == 2 && me < |View(id).cancels| && View(id).cancels[me] == CancelBegun
      modifies this
      ensures Valid() && View(id).tombstone && me < |View(id).cancels|
      ensures View(id).cancels[me] == if identity.None? then CancelAnswered(true) else CancelLoaded(identity.value)
    {
      MarkNext(id, me, env[0]);
      Interfere(id, Cancelling(me), env[1]);
      identity := Load(id, me);
    }

    method SignalNext(id: string, me: nat, identity: Who, signalled: bool, schedule: seq<(string, Event)>)
      requires Valid() && View(id).tombstone
      requires me < |View(id).cancels| && View(id).cancels[me] == CancelLoaded(identity)
      modifies this
      ensures Valid() && View(id).tombstone
      ensures me < |View(id).cancels| && View(id).cancels[me] == CancelSignalled(identity)
      ensures signalled ==> Gone(View(id), identity)
    {
      Interfere(id, Cancelling(me), schedule);
      assert Sound(id) && JudgesBegun(View(id), View(id).cancels[me]);
      Signal(id, me, identity, signalled);
    }

    method RecheckNext(id: string, me: nat, identity: Who, schedule: seq<(string, Event)>) returns (gone: bool)
      requires Valid() && View(id).tombstone
      requires me < |View(id).cancels| && View(id).cancels[me] == CancelSignalled(identity)
      modifies this
      ensures Valid() && View(id).tombstone && me < |View(id).cancels|
      ensures View(id).cancels[me] == if gone then CancelClearing(identity) else CancelAnswered(false)
      ensures Gone(old(View(id)), identity) ==> gone
    {
      Interfere(id, Cancelling(me), schedule);
      gone := Recheck(id, me, identity);
    }

    method ClearNext(id: string, me: nat, schedule: seq<(string, Event)>)
      requires Valid() && View(id).tombstone
      requires me < |View(id).cancels| && View(id).cancels[me].CancelClearing?
      modifies this
      ensures Valid() && View(id).tombstone
      ensures me < |View(id).cancels| && View(id).cancels[me] == CancelAnswered(true)
    {
      Interfere(id, Cancelling(me), schedule);
      Clear(id, me);
    }

    /** `_cancel`: it stops what the lease names, unless that outlives its signals; and a
        confirmed answer rules the agent out of every future of the attempt. */
    method Cancel(id: string, me: nat, signalled: bool, env: seq<seq<(string, Event)>>) returns (result: CancelResult)
      requires Valid() && |env| == 5
      requires me < |View(id).cancels| && View(id).cancels[me] == CancelBegun
      modifies this
      ensures Valid()
      ensures result.Refused? <==> !SafeId(id)
      ensures result.Answered? ==> View(id).tombstone
      ensures result.Answered? ==> me < |View(id).cancels| && View(id).cancels[me] == CancelAnswered(result.confirmed)
      ensures SafeId(id) && signalled ==> result == Answered(true)
      ensures result == Answered(true) ==> forall es :: SafeRun(View(id), es) ==> Exec(View(id), es).agent != Live
    {
      if !SafeId(id) {
        return Refused;
      }
      var identity := MarkAndLoad(id, me, env[..2]);
      if identity.None? {
        result := Answered(true);
      } else {
        SignalNext(id, me, identity.value, signalled, env[2]);
        var gone := RecheckNext(id, me, identity.value, env[3]);
        if gone {
          ClearNext(id, me, env[4]);
        }
        result := Answered(gone);
      }
      if result.confirmed {
        ConfirmedForever(id, me);
      }
    }

    lemma ConfirmedForever(id: string, me: nat)
      requires Valid() && me < |View(id).cancels| && View(id).cancels[me] == CancelAnswered(true)
      ensures forall es :: SafeRun(View(id), es) ==> Exec(View(id), es).agent != Live
    {
      forall es | SafeRun(View(id), es)
        ensures Exec(View(id), es).agent != Live
      {
        assert Sound(id);
        Theorems.ConfirmedCancelIsFinal(View(id), es);
      }
    }

    // ----- the effects of `_prepare`, one by one

    /** Save the lease of the prepare helper, or refuse the request. */
    method LeasePreparation(id: string, accepted: bool)
      requires Valid() && View(id).prepare == PrepareBegun
      modifies this
      ensures Valid() && Stepped(id, PrepareStep(accepted))
    {
      if accepted {
        SaveLease(id, PrepareHelper);
      }
      SetProcesses(id, View(id).(prepare := if accepted then PrepareLeased else PrepareAnswered(false)));
      Untouched(id);
      assert old(Sound(id));
      SoundAfter(id, old(View(id)), PrepareStep(accepted));
    }

    method CheckBeforePreparing(id: string) returns (cancelled: bool)
      requires Valid() && View(id).prepare == PrepareLeased
      modifies this
      ensures Valid() && Stepped(id, PrepareStep(true)) && cancelled == old(View(id)).tombstone
    {
      cancelled := IsCancelled(id);
      SetProcesses(id, View(id).(prepare := if cancelled then PrepareLeaving(false) else PrepareWorking));
      Untouched(id);
      assert old(Sound(id));
      SoundAfter(id, old(View(id)), PrepareStep(true));
    }

    method EnsureWorkspace(id: string, ensured: bool)
      requires Valid() && View(id).prepare == PrepareWorking
      modifies this
      ensures Valid() && Stepped(id, PrepareStep(ensured))
    {
      SetProcesses(id, View(id).(prepare := PrepareLeaving(ensured)));
      Untouched(id);
      assert old(Sound(id));
      SoundAfter(id, old(View(id)), PrepareStep(ensured));
    }

    method ReleasePreparation(id: string)
      requires Valid() && View(id).prepare.PrepareLeaving?
      modifies this
      ensures Valid() && Stepped(id, PrepareStep(true))
    {
      var ok := View(id).prepare.ok;
      RemoveLease(id);
      SetProcesses(id, View(id).(prepare := PrepareAnswered(ok)));
      Untouched(id);
      assert old(Sound(id));
      SoundAfter(id, old(View(id)), PrepareStep(true));
    }

    /** Let the others run; was the prepare helper killed meanwhile? */
    method YieldPreparing(id: string, schedule: seq<(string, Event)>) returns (alive: bool)
      requires Valid() && PrepareAlive(View(id).prepare)
      modifies this
      ensures Valid() && (old(View(id)).tombstone ==> View(id).tombstone)
      ensures if alive then View(id).prepare == old(View(id)).prepare else View(id).prepare == PrepareCrashed
      ensures schedule == [] ==> alive
    {
      Interfere(id, Preparing, schedule);
      alive := !View(id).prepare.PrepareCrashed?;
    }

    /** Prepare the workspace unless a tombstone is there; the helper is then about to leave. */
    method PrepareBody(id: string, ensured: bool, env: seq<seq<(string, Event)>>) returns (alive: bool, ok: bool)
      requires Valid() && |env| == 2 && View(id).prepare == PrepareLeased
      modifies this
      ensures Valid()
      ensures View(id).prepare == if alive then PrepareLeaving(ok) else PrepareCrashed
      ensures ok ==> ensured && !old(View(id)).tombstone
      ensures alive && ensured && !View(id).tombstone ==> ok
      ensures (old(View(id)).tombstone ==> View(id).tombstone) && (Alone(env) ==> alive)
    {
      alive := YieldPreparing(id, env[0]);
      ok := false;
      if alive {
        var cancelled := CheckBeforePreparing(id);
        if !cancelled {
          alive := YieldPreparing(id, env[1]);
          if alive {
            EnsureWorkspace(id, ensured);
            ok := ensured;
          }
        }
      }
    }

    method LeavePreparation(id: string, schedule: seq<(string, Event)>) returns (alive: bool)
      requires Valid() && View(id).prepare.PrepareLeaving?
      modifies this
      ensures Valid()
      ensures if alive then View(id).prepare == PrepareAnswered(old(View(id)).prepare.ok) && View(id).lease == None
              else View(id).prepare == PrepareCrashed
      ensures (old(View(id)).tombstone ==> View(id).tombstone) && (schedule == [] ==> alive)
    {
      alive := YieldPreparing(id, schedule);
      if alive {
        ReleasePreparation(id);
      }
    }

    /** `_prepare`: a workspace is announced only after the helper's own lease is gone,
        and never for an attempt cancelled before; unless it is cancelled or the helper is
        killed, it is announced whenever it was ensured. */
    method Prepare(id: string, ensured: bool, env: seq<seq<(string, Event)>>) returns (result: PrepareResult)
      requires Valid() && |env| == 4 && View(id).prepare == PrepareBegun
      modifies this
      ensures Valid()
      ensures View(id).prepare == if result == PrepareKilled then PrepareCrashed
                                  else PrepareAnswered(result == Prepared)
      ensures result == Prepared || result == PrepareError ==> View(id).lease == None
      ensures result == Prepared ==> ensured && SafeId(id) && !old(View(id)).tombstone
      ensures result == PrepareRefused ==> !SafeId(id)
      ensures result == PrepareError && ensured ==> View(id).tombstone
      ensures Alone(env) ==> result != PrepareKilled
    {
      var alive := YieldPreparing(id, env[0]);
      if !alive { return PrepareKilled; }
      LeasePreparation(id, SafeId(id));
      if !SafeId(id) { return PrepareRefused; }
      var ok;
      alive, ok := PrepareBody(id, ensured, env[1..3]);
      if !alive { return PrepareKilled; }
      alive := LeavePreparation(id, env[3]);
      result := if !alive then PrepareKilled else if ok then Prepared else PrepareError;
    }

    // ----- the effects of `_run`, one by one

    method SaveOwnLease(id: string)
      requires Valid() && (View(id).runner == RunBegun || View(id).runner == RunPreparing)
      modifies this
      ensures Valid() && Stepped(id, RunStep(true))
    {
      SaveLease(id, RunHelper);
      SetProcesses(id, View(id).(runner := if View(id).runner == RunBegun then RunLeased else RunRenewed));
      Untouched(id);
      assert old(Sound(id));
      SoundAfter(id, old(View(id)), RunStep(true));
    }

    method CheckTombstone(id: string) returns (cancelled: bool)
      requires Valid() && (View(id).runner == RunLeased || View(id).runner == RunRenewed)
      modifies this
      ensures Valid() && Stepped(id, RunStep(true)) && cancelled == old(View(id)).tombstone
    {
      cancelled := IsCancelled(id);
      var r := if cancelled then RunLeaving(true)
               else if View(id).runner == RunLeased then RunPreparing else RunCleared;
      SetProcesses(id, View(id).(runner := r));
      Untouched(id);
      assert old(Sound(id));
      SoundAfter(id, old(View(id)), RunStep(true));
    }

    method Abandon(id: string)
      requires Valid() && (View(id).runner == RunBegun || View(id).runner == RunPreparing)
      modifies this
      ensures Valid() && Stepped(id, RunFault)
    {
      SetProcesses(id, RunFaulted(View(id)));
      Untouched(id);
      assert old(Sound(id));
      SoundAfter(id, old(View(id)), RunFault);
    }

    method Launch(id: string, spawns: bool)
      requires Valid() && View(id).runner == RunCleared
      modifies this
      ensures Valid() && Stepped(id, RunStep(spawns))
    {
      SetProcesses(id, RunNext(View(id), spawns));
      Untouched(id);
      assert old(Sound(id));
      SoundAfter(id, old(View(id)), RunStep(spawns));
    }

    /** `process_started`: the lease now names the agent, unless it is already gone. */
    method NameAgent(id: string, identified: bool)
      requires Valid() && View(id).runner == RunSpawned && (identified || View(id).agent == Exited)
      modifies this
      ensures Valid() && Stepped(id, RunStep(identified))
    {
      if identified {
        SaveLease(id, AgentProcess);
      }
      SetProcesses(id, View(id).(runner := RunSupervising));
      Untouched(id);
      assert old(Sound(id));
      SoundAfter(id, old(View(id)), RunStep(identified));
    }

    /** The helper's own timeout terminates an agent that has not exited by itself. */
    method AwaitAgent(id: string)
      requires Valid() && View(id).runner == RunSupervising
      modifies this
      ensures Valid() && View(id).runner == RunLeaving(true) && View(id).agent == Exited
      ensures View(id).tombstone == old(View(id)).tombstone
    {
      assert Sound(id);
      if View(id).agent == Live {
        TakeStep(id, AgentExit);
      }
      TakeStep(id, RunStep(true));
    }

    method Release(id: string)
      requires Valid() && View(id).runner.RunLeaving?
      modifies this
      ensures Valid() && Stepped(id, RunStep(true))
    {
      var ok := View(id).runner.ok;
      RemoveLease(id);
      SetProcesses(id, View(id).(runner := RunAnswered(ok)));
      Untouched(id);
      assert old(Sound(id));
      SoundAfter(id, old(View(id)), RunStep(true));
    }

    /** Let the others run; was the helper killed meanwhile? */
    method Yield(id: string, schedule: seq<(string, Event)>) returns (alive: bool)
      requires Valid() && RunnerAlive(View(id).runner)
      modifies this
      ensures Valid() && Undisturbed(Running, old(View(id)), View(id))
      ensures if alive then View(id).runner == old(View(id)).runner else View(id).runner == RunCrashed
      ensures schedule == [] ==> alive
    {
      Interfere(id, Running, schedule);
      alive := !View(id).runner.RunCrashed?;
    }

    /** Save the helper's lease, then look for a tombstone: both passes of `_run`. */
    method LeaseAndCheck(id: string, schedule: seq<(string, Event)>) returns (alive: bool, cancelled: bool)
      requires Valid() && (View(id).runner == RunBegun || View(id).runner == RunPreparing)
      modifies this
      ensures Valid() && View(id).agent == NotSpawned && (old(View(id)).tombstone ==> View(id).tombstone)
      ensures !alive ==> View(id).runner == RunCrashed
      ensures alive && cancelled ==> View(id).runner == RunLeaving(true)
      ensures alive && !cancelled ==>
              View(id).runner == (if old(View(id)).runner == RunBegun then RunPreparing else RunCleared)
      ensures alive && old(View(id)).tombstone ==> cancelled
      ensures (cancelled ==> View(id).tombstone) && (schedule == [] ==> alive)
    {
      assert Sound(id);
      SaveOwnLease(id);
      alive := Yield(id, schedule);
      cancelled := false;
      if alive {
        cancelled := CheckTombstone(id);
      }
    }

    /** Spawn the agent and hand the lease over to it. */
    method LaunchAgent(id: string, spawns: bool, schedule: seq<(string, Event)>) returns (alive: bool)
      requires Valid() && View(id).runner == RunCleared
      modifies this
      ensures Valid()
      ensures if !alive then View(id).runner == RunCrashed
              else if spawns then View(id).runner == RunSupervising
              else View(id).runner == RunLeaving(true) && View(id).agent == NotSpawned
      ensures (old(View(id)).tombstone ==> View(id).tombstone) && (schedule == [] ==> alive)
    {
      assert Sound(id);
      Launch(id, spawns);
      alive := true;
      if spawns {
        alive := Yield(id, schedule);
        if alive {
          NameAgent(id, View(id).agent == Live);
        }
      }
    }

    /** `_run` once both tombstone checks have passed. */
    method Supervise(id: string, spawns: bool, env: seq<seq<(string, Event)>>) returns (alive: bool)
      requires Valid() && |env| == 3 && View(id).runner == RunCleared
      modifies this
      ensures Valid()
      ensures if alive then
                View(id).runner == RunLeaving(true) && View(id).agent == (if spawns then Exited else NotSpawned)
              else View(id).runner == RunCrashed
      ensures (old(View(id)).tombstone ==> View(id).tombstone) && (Alone(env) ==> alive)
    {
      alive := Yield(id, env[0]);
      if alive {
        alive := LaunchAgent(id, spawns, env[1]);
      }
      if alive && spawns {
        alive := Yield(id, env[2]);
        if alive {
          AwaitAgent(id);
        }
      }
    }

    /** Prepare the workspace, then the second pass of lease and tombstone. */
    method PrepareAndCheck(id: string, ensured: bool, env: seq<seq<(string, Event)>>)
      returns (alive: bool, cancelled: bool)
      requires Valid() && |env| == 2 && View(id).runner == RunPreparing
      modifies this
      ensures Valid() && View(id).agent == NotSpawned && (old(View(id)).tombstone ==> View(id).tombstone)
      ensures if !alive then View(id).runner == RunCrashed
              else if !ensured then View(id).runner == RunLeaving(false)
              else if cancelled then View(id).runner == RunLeaving(true)
              else View(id).runner == RunCleared
      ensures alive && old(View(id)).tombstone ==> cancelled || !ensured
      ensures (cancelled ==> View(id).tombstone) && (Alone(env) ==> alive)
    {
      assert Sound(id);
      alive := Yield(id, env[0]);
      cancelled := false;
      if alive && !ensured {
        Abandon(id);
      } else if alive {
        alive, cancelled := LeaseAndCheck(id, env[1]);
      }
    }

    method Finish(id: string, schedule: seq<(string, Event)>) returns (alive: bool)
      requires Valid() && View(id).runner.RunLeaving?
      modifies this
      ensures Valid()
      ensures View(id).runner == if alive then RunAnswered(old(View(id)).runner.ok) else RunCrashed
      ensures alive ==> View(id).agent == old(View(id)).agent && View(id).lease == None
      ensures old(View(id)).agent == NotSpawned ==> View(id).agent == NotSpawned
      ensures (old(View(id)).tombstone ==> View(id).tombstone) && (schedule == [] ==> alive)
    {
      assert Sound(id);
      alive := Yield(id, schedule);
      if alive {
        Release(id);
      }
    }

    /** `_run` up to its `finally`. */
    method RunBody(id: string, ensured: bool, spawns: bool, env: seq<seq<(string, Event)>>) returns (result: RunResult)
      requires Valid() && |env| == 7 && View(id).runner == RunBegun
      modifies this
      ensures Valid() && result != RunRefused
      ensures result == Killed ==> View(id).runner == RunCrashed
      ensures result == RunError ==> View(id).runner == RunLeaving(false) && View(id).agent == NotSpawned
      ensures result.Returned? ==>
              View(id).runner == RunLeaving(true) && View(id).agent == if result.launched then Exited else NotSpawned
      ensures old(View(id)).tombstone ==> View(id).agent == NotSpawned && result != Returned(true)
      ensures result != Killed && !View(id).tombstone ==> result == if ensured then Returned(spawns) else RunError
      ensures (old(View(id)).tombstone ==> View(id).tombstone) && (Alone(env) ==> result != Killed)
    {
      assert Sound(id);
      var alive := Yield(id, env[0]);
      if !alive { return Killed; }
      var cancelled;
      alive, cancelled := LeaseAndCheck(id, env[1]);
      if !alive { return Killed; }
      if cancelled { return Returned(false); }
      alive, cancelled := PrepareAndCheck(id, ensured, env[2..4]);
      if !alive { return Killed; }
      if !ensured { return RunError; }
      if cancelled { return Returned(false); }
      alive := Supervise(id, spawns, env[4..]);
      result := if alive then Returned(spawns) else Killed;
    }

    /** `_run`: an attempt cancelled before it starts never launches, one that is never
        cancelled launches whenever its workspace and its agent can be had, and a helper
        that answers leaves neither a live agent nor anything that could start one. */
    method Run(id: string, ensured: bool, spawns: bool, env: seq<seq<(string, Event)>>) returns (result: RunResult)
      requires Valid() && |env| == 8 && View(id).runner == RunBegun
      modifies this
      ensures Valid()
      ensures View(id).runner == if result == Killed then RunCrashed else RunAnswered(result.Returned?)
      ensures result == RunRefused <==> !SafeId(id)
      ensures result.Returned? || result == RunError ==> View(id).lease == None
      ensures result == RunError ==> View(id).agent == NotSpawned
      ensures result.Returned? ==> View(id).agent == if result.launched then Exited else NotSpawned
      ensures result != Killed ==> !CanStillRun(View(id))
      ensures old(View(id)).tombstone ==> View(id).agent == NotSpawned && result != Returned(true)
      ensures SafeId(id) && result != Killed && !View(id).tombstone ==>
                result == if ensured then Returned(spawns) else RunError
      ensures Alone(env) ==> result != Killed
    {
      assert Sound(id);
      if !SafeId(id) {
        Abandon(id);
        return RunRefused;
      }
      result := RunBody(id, ensured, spawns, env[..7]);
      if result != Killed {
        var alive := Finish(id, env[7]);
        if !alive {
          result := Killed;
        }
      }
    }
  }
}
