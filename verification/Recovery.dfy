/** Cold start: what `recover` makes of the durable records, and why it may be cut anywhere. */
module Recovery {
  import opened Wrappers
  import opened IssueRecords
  import opened ControlInvariant

  /** The answers the world gives during one pass over the records. */
  datatype Answers = Answers(
    configured: set<Target>,
    ssh: set<Target>,
    home: Target,
    confirms: set<(Target, string)>,   // cancel requests answered `confirmed_safe`
    gone: set<ProcessIdentity>,        // identities that match no process after a termination
    tracker: map<string, TrackerAnswer>)

  function TrackerSays(w: Answers, issue: string): TrackerAnswer {
    if issue in w.tracker then w.tracker[issue] else Found(Missing)
  }

  /** The tracker answered, and the issue is not to be worked on. */
  predicate Inactive(answer: TrackerAnswer) {
    answer == Found(NonActive) || answer == Found(Terminal) || answer == Found(Missing)
  }

  /** `ExecutionTarget.reap`. */
  predicate TargetReap(w: Answers, t: Target, attempt: string, identity: Option<ProcessIdentity>) {
    if t in w.ssh then (t, attempt) in w.confirms
    else if identity.None? then true
    else if identity.value.hostId != "local" && identity.value.hostId != t then false
    else identity.value in w.gone
  }

  /** How `_reap_state` ends for record `r`. */
  function ReapOf(w: Answers, r: IssueState): Reap {
    var attempt := ReapAttempt(r);
    var t := ReapTarget(r, w.home);
    if attempt.None? || t !in w.configured then Impossible
    else if TargetReap(w, t, attempt.value, r.process) then Confirmed
    else Unconfirmed
  }

  /** The attempt the record knows: the last one started, or else that of its process. */
  predicate KnowsAttempt(r: IssueState, id: string) {
    id != "" &&
    if r.lastAttemptId.Some? && r.lastAttemptId.value != "" then r.lastAttemptId == Some(id)
    else r.process.Some? && r.process.value.attemptId == id
  }

  /** Where the record says its attempt ran; the default target if it does not say. */
  predicate RanOn(r: IssueState, home: Target, t: Target) {
    if r.executionTarget.Some? && r.executionTarget.value != "" then r.executionTarget == Some(t)
    else if r.process.Some? && r.process.value.hostId != "local" then t == r.process.value.hostId
    else t == home
  }

  /** The target stopped the attempt: a helper on the ssh target confirmed it, or no process
      is known on a local one, or the one known there is gone. */
  predicate StoppedOn(w: Answers, t: Target, id: string, process: Option<ProcessIdentity>) {
    || (t in w.ssh && (t, id) in w.confirms)
    || (t !in w.ssh && process.None?)
    || (t !in w.ssh && process.Some? && process.value in w.gone
        && (process.value.hostId == "local" || process.value.hostId == t))
  }

  /** Exactly which reaps are confirmed, and which cannot even be sent. */
  lemma ReapMeans(w: Answers, r: IssueState)
    ensures ReapOf(w, r) == Confirmed
            <==> exists id, t :: KnowsAttempt(r, id) && RanOn(r, w.home, t) && t in w.configured
                                 && StoppedOn(w, t, id, r.process)
    ensures ReapOf(w, r) == Impossible
            <==> !exists id, t :: KnowsAttempt(r, id) && RanOn(r, w.home, t) && t in w.configured
  {
    var id, t := ReapAttempt(r), ReapTarget(r, w.home);
    assert RanOn(r, w.home, t) && forall u :: RanOn(r, w.home, u) ==> u == t;
    assert id.Some? ==> KnowsAttempt(r, id.value);
    assert forall i :: KnowsAttempt(r, i) ==> id == Some(i);
  }

  /** The first save of `recover` for a record that needs a reap. */
  function Halfway(w: Answers, r: IssueState): IssueState {
    Reaped(r, ReapOf(w, r))
  }

  /** The last save of `recover` for one record. */
  function Final(w: Answers, issue: string, r: IssueState): IssueState {
    Recovered(AfterReap(r, ReapOf(w, r)), TrackerSays(w, issue))
  }

  /** `recover` over the records in `order`, dying after `saves` saves. */
  function RecoverCut(w: Answers, disk: map<string, IssueState>, order: seq<string>, saves: nat)
    : map<string, IssueState>
    requires forall i :: 0 <= i < |order| ==> order[i] in disk
    decreases |order|
  {
    if order == [] || saves == 0 then disk
    else
      var issue := order[0];
      var r := disk[issue];
      if NeedsReap(r) && saves == 1 then disk[issue := Halfway(w, r)]
      else RecoverCut(w, disk[issue := Final(w, issue, r)], order[1..], saves - if NeedsReap(r) then 2 else 1)
  }

  /** An uninterrupted `recover`. */
  function RecoverAll(w: Answers, disk: map<string, IssueState>, order: seq<string>): map<string, IssueState>
    requires forall i :: 0 <= i < |order| ==> order[i] in disk
  {
    RecoverCut(w, disk, order, 2 * |order|)
  }

  /** Equal but for the number of recoveries survived. */
  predicate SameRecord(r: IssueState, f: IssueState) {
    r.(recoveryCount := 0) == f.(recoveryCount := 0)
  }

  predicate SameRecords(a: map<string, IssueState>, b: map<string, IssueState>) {
    a.Keys == b.Keys && forall i | i in a :: SameRecord(a[i], b[i])
  }

  // ----- one record

  /** Recovering a recovered record changes nothing but the count. */
  lemma FinalIsFinal(w: Answers, issue: string, r: IssueState)
    requires RecordOk(r)
    ensures SameRecord(Final(w, issue, Final(w, issue, r)), Final(w, issue, r))
    ensures Final(w, issue, r).phase != Running && Final(w, issue, r).nextRunAt == None
  {
    var reap := ReapOf(w, r);
    var f := Final(w, issue, r);
    RecoveredRecord(r, AfterReap(r, reap), f, reap, TrackerSays(w, issue));
    if ExecutorBlocked(f) {
      SameBlockSameReap(w, r, f);
    }
    AgainIsSame(w, issue, r, f);
  }

  lemma SameBlockSameReap(w: Answers, r: IssueState, f: IssueState)
    requires f.lastAttemptId == r.lastAttemptId && f.executionTarget == r.executionTarget && f.process == r.process
    ensures ReapOf(w, f) == ReapOf(w, r)
  {}

  lemma AgainIsSame(w: Answers, issue: string, r: IssueState, f: IssueState)
    requires RecordOk(f) && f == Final(w, issue, r) && f.phase != Running
    requires ExecutorBlocked(f) ==> ReapOf(w, f) != Confirmed
    ensures SameRecord(Final(w, issue, f), f) && f.nextRunAt == None
  {
    AfterReapRecord(f, AfterReap(f, ReapOf(w, f)), ReapOf(w, f));
    assert AfterReap(f, ReapOf(w, f)) == f;
    RecoveredTwice(AfterReap(r, ReapOf(w, r)), f, TrackerSays(w, issue));
  }

  lemma RecoveredTwice(a: IssueState, f: IssueState, answer: TrackerAnswer)
    requires f == Recovered(a, answer)
    ensures f.nextRunAt == None && SameRecord(Recovered(f, answer), f)
  {}

  /** A confirmed reap may be asked for again: the evidence that was cleared is not needed. */
  lemma HalfwayReap(w: Answers, r: IssueState)
    requires RecordOk(r) && NeedsReap(r)
    ensures ReapOf(w, Halfway(w, r)) == ReapOf(w, r)
  {}

  lemma HalfwayIsFinished(w: Answers, issue: string, r: IssueState)
    requires RecordOk(r) && NeedsReap(r)
    ensures SameRecord(Final(w, issue, Halfway(w, r)), Final(w, issue, r))
  {
    var reap := ReapOf(w, r);
    var h := Halfway(w, r);
    HalfwayReap(w, r);
    assert r.phase == Running || ExecutorBlocked(r);
    ReapedRecord(r, h, reap);
    AfterReapRecord(r, AfterReap(r, reap), reap);
    AfterReapRecord(h, AfterReap(h, reap), reap);
  }

  /** Which half-recovered records a restart finishes as the first pass would have done:
      for any record carrying its target, all but those whose only attempt id was in the
      process evidence that the confirmed reap has just cleared. */
  lemma HalfwayIsExact(w: Answers, issue: string, r: IssueState)
    requires NeedsReap(r) && r.executionTarget.Some? && r.executionTarget.value != ""
    ensures SameRecord(Final(w, issue, Halfway(w, r)), Final(w, issue, r))
            <==> !((r.lastAttemptId == None || r.lastAttemptId == Some("")) && ReapOf(w, r) == Confirmed
                   && (r.phase == Running || r.phase == Blocked))
  {
    var h := Halfway(w, r);
    if ReapOf(w, r) == Confirmed && (r.phase == Running || r.phase == Blocked) {
      assert NeedsReap(h) && h.process == None;
      assert ReapOf(w, h) == if r.lastAttemptId == None || r.lastAttemptId == Some("") then Impossible else Confirmed;
    }
  }

  // ----- all records

  predicate Distinct(order: seq<string>) {
    forall i, j :: 0 <= i < j < |order| ==> order[i] != order[j]
  }

  lemma {:induction false} CutAt(w: Answers, disk: map<string, IssueState>, order: seq<string>, saves: nat,
                                 issue: string)
    requires Distinct(order) && (forall i :: 0 <= i < |order| ==> order[i] in disk) && issue in disk
    ensures RecoverCut(w, disk, order, saves).Keys == disk.Keys
    ensures var r := RecoverCut(w, disk, order, saves)[issue];
            || r == disk[issue]
            || (issue in order && r == Final(w, issue, disk[issue]))
            || (issue in order && NeedsReap(disk[issue]) && r == Halfway(w, disk[issue]))
    ensures saves >= 2 * |order| && issue in order ==>
              RecoverCut(w, disk, order, saves)[issue] == Final(w, issue, disk[issue])
    decreases |order|
  {
    if order != [] && saves != 0 {
      var first := order[0];
      var r := disk[first];
      if !(NeedsReap(r) && saves == 1) {
        var next := disk[first := Final(w, first, r)];
        CutAt(w, next, order[1..], saves - if NeedsReap(r) then 2 else 1, issue);
        assert first !in order[1..];
        if issue == first {
          NotInOrder(w, next, order[1..], saves - if NeedsReap(r) then 2 else 1, issue);
        }
      }
    }
  }

  lemma {:induction false} NotInOrder(w: Answers, disk: map<string, IssueState>, order: seq<string>, saves: nat,
                                      issue: string)
    requires (forall i :: 0 <= i < |order| ==> order[i] in disk) && issue in disk && issue !in order
    ensures issue in RecoverCut(w, disk, order, saves) && RecoverCut(w, disk, order, saves)[issue] == disk[issue]
    decreases |order|
  {
    if order != [] && saves != 0 {
      var r := disk[order[0]];
      if !(NeedsReap(r) && saves == 1) {
        var next := disk[order[0] := Final(w, order[0], r)];
        NotInOrder(w, next, order[1..], saves - if NeedsReap(r) then 2 else 1, issue);
      }
    }
  }

  /** Recovery is crash-restartable: cut it after any save and run it again from disk,
      and the records are those of one uninterrupted pass, up to the recovery count. */
  lemma {:induction false} RestartIsTransparent(w: Answers, disk: map<string, IssueState>, order: seq<string>,
                                                saves: nat, cut: map<string, IssueState>)
    requires Distinct(order) && forall i :: 0 <= i < |order| ==> order[i] in disk
    requires (forall i | i in disk :: RecordOk(disk[i])) && cut == RecoverCut(w, disk, order, saves)
    ensures cut.Keys == disk.Keys
    ensures SameRecords(RecoverAll(w, cut, order), RecoverAll(w, disk, order))
  {
    forall issue | issue in disk
      ensures cut.Keys == disk.Keys == RecoverAll(w, disk, order).Keys && RecoverAll(w, cut, order).Keys == disk.Keys
      ensures SameRecord(RecoverAll(w, cut, order)[issue], RecoverAll(w, disk, order)[issue])
    {
      CutAt(w, disk, order, saves, issue);
      CutAt(w, disk, order, 2 * |order|, issue);
      CutAt(w, cut, order, 2 * |order|, issue);
      if issue in order {
        FinalIsFinal(w, issue, disk[issue]);
        if NeedsReap(disk[issue]) {
          HalfwayIsFinished(w, issue, disk[issue]);
        }
      } else {
        NotInOrder(w, disk, order, saves, issue);
        NotInOrder(w, disk, order, 2 * |order|, issue);
        NotInOrder(w, cut, order, 2 * |order|, issue);
      }
    }
    CutKeys(w, disk, order, saves);
    CutKeys(w, disk, order, 2 * |order|);
    CutKeys(w, cut, order, 2 * |order|);
  }

  lemma {:induction false} CutKeys(w: Answers, disk: map<string, IssueState>, order: seq<string>, saves: nat)
    requires forall i :: 0 <= i < |order| ==> order[i] in disk
    ensures RecoverCut(w, disk, order, saves).Keys == disk.Keys
    decreases |order|
  {
    if order != [] && saves != 0 {
      var r := disk[order[0]];
      if !(NeedsReap(r) && saves == 1) {
        CutKeys(w, disk[order[0] := Final(w, order[0], r)], order[1..], saves - if NeedsReap(r) then 2 else 1);
      }
    }
  }

  /** One record after its recovery.  It stays blocked if its executor was not proved to have
      stopped, or for its labels if its issue is not known to be inactive; any other is ready,
      or released if it is inactive. */
  predicate RecoveredAs(w: Answers, issue: string, r: IssueState, f: IssueState) {
    var unproved := (r.phase == Running || ExecutorBlocked(r)) && ReapOf(w, r) != Confirmed;
    && f.phase == (if unproved then Blocked
                   else if Inactive(TrackerSays(w, issue)) then Released
                   else if r.lastOutcome == PlacementBlocked then Blocked
                   else Ready)
    && (ExecutorBlocked(f) <==> unproved)
    && f.nextRunAt == None && f.process == (if unproved then r.process else None)
    && f.recoveryCount == r.recoveryCount + 1 && f.lastAttemptId == r.lastAttemptId
    && f.failureCount == r.failureCount && f.continuationIndex == r.continuationIndex && f.session == r.session
  }

  lemma RecoveredMeans(a: IssueState, answer: TrackerAnswer, f: IssueState)
    requires f == Recovered(a, answer)
    ensures f.phase == if ExecutorBlocked(a) then Blocked
                       else if Inactive(answer) then Released
                       else if a.phase == Blocked then Blocked
                       else Ready
    ensures ExecutorBlocked(a) ==> f.lastOutcome != PlacementBlocked
    ensures f.phase == Blocked && !ExecutorBlocked(a) ==> f.lastOutcome == PlacementBlocked
    ensures f.nextRunAt == None && f.process == a.process && f.recoveryCount == a.recoveryCount + 1
    ensures f.failureCount == a.failureCount && f.continuationIndex == a.continuationIndex
    ensures f.session == a.session && f.lastAttemptId == a.lastAttemptId
  {}

  lemma FinalMeans(w: Answers, issue: string, r: IssueState)
    requires RecordOk(r)
    ensures RecoveredAs(w, issue, r, Final(w, issue, r))
  {
    var a := AfterReap(r, ReapOf(w, r));
    AfterReapRecord(r, a, ReapOf(w, r));
    RecoveredMeans(a, TrackerSays(w, issue), Final(w, issue, r));
  }

  /** After an uninterrupted recovery every record is recovered so; none is RUNNING and no
      timer is left. */
  lemma RecoveryLeavesNothingRunning(w: Answers, disk: map<string, IssueState>, order: seq<string>, issue: string)
    requires Distinct(order) && (forall i :: 0 <= i < |order| ==> order[i] in disk) && issue in order
    requires forall i | i in disk :: RecordOk(disk[i])
    ensures issue in RecoverAll(w, disk, order)
    ensures var r := RecoverAll(w, disk, order)[issue];
            RecoveredAs(w, issue, disk[issue], r) && r.phase != Running && r.nextRunAt == None
  {
    CutAt(w, disk, order, 2 * |order|, issue);
    FinalMeans(w, issue, disk[issue]);
  }
}
