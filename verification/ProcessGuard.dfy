/**
 The process table of a host, birth identities, and the tree kill.  A process is known
 by its pid and its time of birth; pids are used again after a process is gone.
 */
module ProcessGuard {
  import opened Wrappers

  /** `serial` tells processes apart; no operation looks at it. */
  datatype Process = Process(birth: real, parent: Option<nat>, serial: nat)

  datatype Identity = Identity(pid: nat, createTime: real, hostId: string)

  const TOLERANCE := 0.01

  function Abs(x: real): real { if x < 0.0 then -x else x }

  /** `ProcessGuard.matches` */
  predicate Matches(table: map<nat, Process>, who: Identity) {
    who.pid in table && Abs(table[who.pid].birth - who.createTime) < TOLERANCE
  }

  // ----- what happens to a process table

  datatype Event = Spawn(pid: nat, birth: real, parent: Option<nat>) | Exit(pid: nat)

  /** The table, the last birth under each pid, and the number of processes so far. */
  datatype Host = Host(table: map<nat, Process>, born: map<nat, real>, count: nat)

  predicate Enabled(h: Host, e: Event) {
    match e
    case Spawn(pid, birth, parent) =>
      pid !in h.table && (pid in h.born ==> h.born[pid] <= birth) && (parent.Some? ==> parent.value in h.table)
    case Exit(pid) => pid in h.table
  }

  /** The pid of a process is given to another one born within the tolerance. */
  predicate QuickReuse(h: Host, e: Event) {
    e.Spawn? && Enabled(h, e) && e.pid in h.born && e.birth < h.born[e.pid] + TOLERANCE
  }

  /** The table without `gone`; the children left behind become orphans. */
  function Without(table: map<nat, Process>, gone: set<nat>): map<nat, Process> {
    map p | p in table && p !in gone ::
      if table[p].parent.Some? && table[p].parent.value in gone then table[p].(parent := None) else table[p]
  }

  function Next(h: Host, e: Event): Host {
    if !Enabled(h, e) then h
    else match e
         case Spawn(pid, birth, parent) =>
           Host(h.table[pid := Process(birth, parent, h.count)], h.born[pid := birth], h.count + 1)
         case Exit(pid) => h.(table := Without(h.table, {pid}))
  }

  function Exec(h: Host, es: seq<Event>): Host {
    if es == [] then h else Next(Exec(h, es[..|es| - 1]), es[|es| - 1])
  }

  predicate NoQuickReuse(h: Host, es: seq<Event>) {
    es == [] || (NoQuickReuse(h, es[..|es| - 1]) && !QuickReuse(Exec(h, es[..|es| - 1]), es[|es| - 1]))
  }

  ghost predicate Consistent(h: Host) {
    forall p | p in h.table :: p in h.born && h.born[p] == h.table[p].birth && h.table[p].serial < h.count
  }

  /** The process `serial`, once captured as `who`, is there or gone for good. */
  predicate Remembered(h: Host, who: Identity, serial: nat) {
    && serial < h.count && who.pid in h.born && who.createTime <= h.born[who.pid]
    && (who.pid in h.table ==>
          if h.table[who.pid].serial == serial then h.table[who.pid].birth == who.createTime
          else who.createTime + TOLERANCE <= h.table[who.pid].birth)
  }

  lemma RememberedStays(h: Host, e: Event, who: Identity, serial: nat)
    requires Consistent(h) && Remembered(h, who, serial) && !QuickReuse(h, e)
    ensures Consistent(Next(h, e)) && Remembered(Next(h, e), who, serial)
  {}

  lemma {:induction false} RememberedForever(h: Host, es: seq<Event>, who: Identity, serial: nat)
    requires Consistent(h) && Remembered(h, who, serial) && NoQuickReuse(h, es)
    ensures Consistent(Exec(h, es)) && Remembered(Exec(h, es), who, serial)
  {
    if es != [] {
      RememberedForever(h, es[..|es| - 1], who, serial);
      RememberedStays(Exec(h, es[..|es| - 1]), es[|es| - 1], who, serial);
    }
  }

  /** A captured identity matches exactly as long as the captured process itself is there,
      whoever else gets its pid later. */
  lemma MatchesTheVeryProcess(h: Host, es: seq<Event>, who: Identity)
    requires Consistent(h) && who.pid in h.table && who.createTime == h.table[who.pid].birth && NoQuickReuse(h, es)
    ensures Matches(Exec(h, es).table, who)
            <==> who.pid in Exec(h, es).table && Exec(h, es).table[who.pid].serial == h.table[who.pid].serial
  {
    RememberedForever(h, es, who, h.table[who.pid].serial);
  }

  /** And the pid may be reused no sooner: a successor is mistaken for the captured
      process exactly when it is born within the tolerance. */
  lemma QuickReuseDeceives(h: Host, pid: nat, birth: real)
    requires Consistent(h) && pid in h.table && h.table[pid].birth <= birth
    ensures var gone := Next(h, Exit(pid));
            && Enabled(gone, Spawn(pid, birth, None))
            && (Matches(Next(gone, Spawn(pid, birth, None)).table, Identity(pid, h.table[pid].birth, ""))
                <==> QuickReuse(gone, Spawn(pid, birth, None)))
  {}

  // ----- the tree kill

  /** `chain` leads from `root` to `p`, each a living child of the one before. */
  predicate Chain(table: map<nat, Process>, root: nat, p: nat, chain: seq<nat>) {
    && |chain| > 0 && chain[0] == root && chain[|chain| - 1] == p
    && (forall i | 0 <= i < |chain| :: chain[i] in table)
    && forall i | 0 < i < |chain| :: table[chain[i]].parent == Some(chain[i - 1])
  }

  ghost predicate Below(table: map<nat, Process>, root: nat, p: nat) {
    exists chain :: Chain(table, root, p, chain)
  }

  lemma BelowSelf(table: map<nat, Process>, root: nat)
    requires root in table
    ensures Below(table, root, root)
  {
    assert Chain(table, root, root, [root]);
  }

  lemma BelowChild(table: map<nat, Process>, root: nat, p: nat, c: nat)
    requires Below(table, root, p) && c in table && table[c].parent == Some(p)
    ensures Below(table, root, c)
  {
    var chain :| Chain(table, root, p, chain);
    assert Chain(table, root, c, chain + [c]);
  }

  lemma {:induction false} ClosedHoldsChain(table: map<nat, Process>, root: nat, p: nat, chain: seq<nat>,
                                            tree: set<nat>)
    requires Chain(table, root, p, chain) && root in tree
    requires forall c | c in table && table[c].parent.Some? && table[c].parent.value in tree :: c in tree
    ensures p in tree
    decreases |chain|
  {
    if |chain| > 1 {
      var n := |chain| - 1;
      assert Chain(table, root, chain[n - 1], chain[..n]);
      ClosedHoldsChain(table, root, chain[n - 1], chain[..n], tree);
    }
  }

  /** The process and its living descendants. */
  method Tree(table: map<nat, Process>, root: nat) returns (tree: set<nat>)
    requires root in table
    ensures forall p :: p in tree <==> Below(table, root, p)
  {
    tree := {root};
    BelowSelf(table, root);
    while exists c :: c in table && c !in tree && table[c].parent.Some? && table[c].parent.value in tree
      invariant root in tree && tree <= table.Keys && forall p | p in tree :: Below(table, root, p)
      decreases |table.Keys - tree|
    {
      var c :| c in table && c !in tree && table[c].parent.Some? && table[c].parent.value in tree;
      BelowChild(table, root, table[c].parent.value, c);
      assert table.Keys - (tree + {c}) == table.Keys - tree - {c};
      tree := tree + {c};
    }
    forall p | Below(table, root, p)
      ensures p in tree
    {
      var chain :| Chain(table, root, p, chain);
      ClosedHoldsChain(table, root, p, chain, tree);
    }
  }

  class Guard {
    const ownPid: nat
    var table: map<nat, Process>

    constructor (ownPid: nat, table: map<nat, Process>)
      ensures this.ownPid == ownPid && this.table == table
    {
      this.ownPid, this.table := ownPid, table;
    }

    /** `_terminate_tree`; the processes in `deaf` outlive every signal. */
    method TerminateTree(who: Identity, deaf: set<nat>) returns (signalled: bool)
      modifies this`table
      ensures signalled == (who.pid != ownPid && Matches(old(table), who))
      ensures !signalled ==> table == old(table)
      ensures signalled ==> forall p :: p in table <==> p in old(table) && (p in deaf || !Below(old(table), who.pid, p))
      ensures forall p | p in table :: table[p].birth == old(table)[p].birth && table[p].serial == old(table)[p].serial
    {
      signalled := who.pid != ownPid && Matches(table, who);
      if signalled {
        var tree := Tree(table, who.pid);
        table := Without(table, tree - deaf);
      }
    }

    /** `ExecutionTarget.reap` of a local target: confirmed just when there is no evidence
        of a process, or the evidence is of this host and matches nothing, or matches a
        process that is not the caller and obeys its signals. */
    method ReapLocal(target: string, evidence: Option<Identity>, deaf: set<nat>) returns (confirmed: bool)
      modifies this`table
      ensures evidence.None? ==> confirmed && table == old(table)
      ensures evidence.Some? && evidence.value.hostId != "local" && evidence.value.hostId != target ==>
                !confirmed && table == old(table)
      ensures evidence.Some? && (evidence.value.hostId == "local" || evidence.value.hostId == target) ==>
                && (confirmed <==> !Matches(table, evidence.value))
                && (confirmed <==> !Matches(old(table), evidence.value)
                                   || (evidence.value.pid != ownPid && evidence.value.pid !in deaf))
                && (Matches(old(table), evidence.value) && evidence.value.pid != ownPid ==>
                      forall p | p in table :: p in deaf || !Below(old(table), evidence.value.pid, p))
      ensures forall p | p in table :: p in old(table) && table[p].birth == old(table)[p].birth
                                       && table[p].serial == old(table)[p].serial
      ensures forall p | p in old(table) && p !in table ::
                evidence.Some? && Matches(old(table), evidence.value) && Below(old(table), evidence.value.pid, p)
    {
      if evidence.None? {
        return true;
      }
      var who := evidence.value;
      if who.hostId != "local" && who.hostId != target {
        return false;
      }
      if Matches(table, who) {
        BelowSelf(table, who.pid);
        var _ := TerminateTree(who, deaf);
      }
      confirmed := !Matches(table, who);
    }
  }
}
