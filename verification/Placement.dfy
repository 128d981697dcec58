/** Where an issue may run, and in which order issues are considered. */
module Placement {
  import opened Wrappers
  import opened IssueRecords

  datatype Issue = Issue(id: string, iid: int, labels: seq<string>)

  predicate Requests(l: string, prefix: string) {
    prefix <= l
  }

  function FirstRequest(labels: seq<string>, prefix: string): Option<Target> {
    if labels == [] then None
    else if Requests(labels[0], prefix) then Some(labels[0][|prefix|..])
    else FirstRequest(labels[1..], prefix)
  }

  /** `ExecutionRouter.placement`; None is its PlacementError. */
  function Place(labels: seq<string>, prefix: string, configured: set<Target>, home: Target): Option<Target> {
    var t := match FirstRequest(labels, prefix) { case None => home case Some(first) => first };
    if (forall l | l in labels && Requests(l, prefix) :: l[|prefix|..] == t) && t in configured then Some(t) else None
  }

  /** The targets the labels ask for. */
  function Requested(labels: seq<string>, prefix: string): set<Target> {
    set l | l in labels && Requests(l, prefix) :: l[|prefix|..]
  }

  lemma {:induction false} FirstRequestIsRequested(labels: seq<string>, prefix: string)
    ensures match FirstRequest(labels, prefix)
            case None => Requested(labels, prefix) == {}
            case Some(t) => t in Requested(labels, prefix)
  {
    if labels != [] {
      FirstRequestIsRequested(labels[1..], prefix);
      if Requests(labels[0], prefix) {
        assert labels[0] in labels;
      } else {
        assert forall l :: l in labels && Requests(l, prefix) ==> l in labels[1..];
        match FirstRequest(labels[1..], prefix)
        case None =>
        case Some(t) =>
          var l :| l in labels[1..] && Requests(l, prefix) && l[|prefix|..] == t;
          assert l in labels;
      }
    }
  }

  /** Some label asks for `t`: it is the prefix with `t` behind it. */
  predicate Asks(labels: seq<string>, prefix: string, t: Target) {
    prefix + t in labels
  }

  lemma RequestedMeans(labels: seq<string>, prefix: string, t: Target)
    ensures t in Requested(labels, prefix) <==> Asks(labels, prefix, t)
  {
    if Asks(labels, prefix, t) {
      assert (prefix + t)[|prefix|..] == t && Requests(prefix + t, prefix);
    }
    if t in Requested(labels, prefix) {
      var l :| l in labels && Requests(l, prefix) && l[|prefix|..] == t;
      assert l == prefix + t;
    }
  }

  /** Placement succeeds with `t` just when `t` is configured and is the one target the labels
      ask for, or the default when they ask for none; order and repetition do not matter. */
  lemma PlaceMeaning(labels: seq<string>, prefix: string, configured: set<Target>, home: Target, t: Target)
    ensures Place(labels, prefix, configured, home) == Some(t)
            <==> t in configured && if exists u :: Asks(labels, prefix, u)
                                    then forall u :: Asks(labels, prefix, u) <==> u == t
                                    else t == home
  {
    PlaceByRequests(labels, prefix, configured, home, t);
    forall u
      ensures u in Requested(labels, prefix) <==> Asks(labels, prefix, u)
    {
      RequestedMeans(labels, prefix, u);
    }
    assert t in {t};
    if forall u :: Asks(labels, prefix, u) <==> u == t {
      assert Requested(labels, prefix) == {t};
    }
  }

  lemma PlaceByRequests(labels: seq<string>, prefix: string, configured: set<Target>, home: Target, t: Target)
    ensures Place(labels, prefix, configured, home) == Some(t)
            <==> t in configured && (Requested(labels, prefix) == {t} || (Requested(labels, prefix) == {} && t == home))
  {
    FirstRequestIsRequested(labels, prefix);
    var asked := Requested(labels, prefix);
    assert forall l :: l in labels && Requests(l, prefix) ==> l[|prefix|..] in asked;
    if Place(labels, prefix, configured, home) == Some(t) {
      assert forall u :: u in asked ==> u == t;
      if asked != {} {
        var u :| u in asked;
        assert asked == {t};
      }
    }
  }

  // ----- the order of candidates

  function TextLeq(a: string, b: string): bool {
    a == "" || (b != "" && (a[0] < b[0] || (a[0] == b[0] && TextLeq(a[1..], b[1..]))))
  }

  /** The sort key `(iid, id)`. */
  predicate Leq(a: Issue, b: Issue) {
    a.iid < b.iid || (a.iid == b.iid && TextLeq(a.id, b.id))
  }

  lemma {:induction false} TextLeqTotal(a: string, b: string)
    ensures TextLeq(a, b) || TextLeq(b, a)
  {
    if a != "" && b != "" && a[0] == b[0] {
      TextLeqTotal(a[1..], b[1..]);
    }
  }

  lemma {:induction false} TextLeqTransitive(a: string, b: string, c: string)
    requires TextLeq(a, b) && TextLeq(b, c)
    ensures TextLeq(a, c)
    decreases |a|
  {
    if a != "" && a[0] == b[0] && b[0] == c[0] {
      TextLeqTransitive(a[1..], b[1..], c[1..]);
    }
  }

  /** Text `a` comes before `b`: it is a proper prefix of it, or has the lower character at the
      first place where they differ. */
  ghost predicate TextBefore(a: string, b: string) {
    || (|a| < |b| && b[..|a|] == a)
    || exists k :: 0 <= k < |a| && k < |b| && a[..k] == b[..k] && a[k] < b[k]
  }

  lemma {:induction false} TextLeqMeans(a: string, b: string)
    ensures TextLeq(a, b) <==> a == b || TextBefore(a, b)
  {
    if a != "" && b != "" && a[0] == b[0] {
      TextLeqMeans(a[1..], b[1..]);
      TextBeforeBelow(a, b);
    } else if a != "" && b != "" {
      assert a[..0] == b[..0];
      assert forall k :: 0 < k <= |a| ==> a[..k][0] == a[0];
      assert forall k :: 0 < k <= |b| ==> b[..k][0] == b[0];
    } else if a == "" {
      assert b[..0] == a;
    }
  }

  lemma TextBeforeBelow(a: string, b: string)
    requires a != "" && b != "" && a[0] == b[0]
    ensures TextBefore(a, b) <==> TextBefore(a[1..], b[1..])
    ensures a == b <==> a[1..] == b[1..]
  {
    var c, d := a[1..], b[1..];
    assert a == [a[0]] + c && b == [b[0]] + d;
    if |a| < |b| {
      assert b[..|a|] == [b[0]] + d[..|c|];
      assert b[..|a|] == a <==> d[..|c|] == c;
    }
    forall k | 0 <= k < |c| && k < |d|
      ensures a[..k + 1] == b[..k + 1] <==> c[..k] == d[..k]
    {
      assert a[..k + 1] == [a[0]] + c[..k] && b[..k + 1] == [b[0]] + d[..k];
    }
    if TextBefore(a, b) && !(|a| < |b| && b[..|a|] == a) {
      var k :| 0 <= k < |a| && k < |b| && a[..k] == b[..k] && a[k] < b[k];
      assert a[..k - 1 + 1] == b[..k - 1 + 1];
      assert c[..k - 1] == d[..k - 1] && c[k - 1] < d[k - 1];
    }
    if TextBefore(c, d) && !(|c| < |d| && d[..|c|] == c) {
      var k :| 0 <= k < |c| && k < |d| && c[..k] == d[..k] && c[k] < d[k];
      assert a[..k + 1] == b[..k + 1] && a[k + 1] < b[k + 1];
    }
  }

  /** Issue `a` ranks before issue `b`: by the lower `iid`, then by the lower id. */
  ghost predicate RanksBefore(a: Issue, b: Issue) {
    a.iid < b.iid || (a.iid == b.iid && TextBefore(a.id, b.id))
  }

  lemma LeqMeans(a: Issue, b: Issue)
    ensures Leq(a, b) <==> RanksBefore(a, b) || (a.iid == b.iid && a.id == b.id)
  {
    TextLeqMeans(a.id, b.id);
  }

  predicate Ordered(s: seq<Issue>) {
    forall i, j :: 0 <= i < j < |s| ==> Leq(s[i], s[j])
  }

  function Insert(x: Issue, s: seq<Issue>): seq<Issue> {
    if s == [] || Leq(x, s[0]) then [x] + s else [s[0]] + Insert(x, s[1..])
  }

  function SortIssues(s: seq<Issue>): seq<Issue> {
    if s == [] then [] else Insert(s[0], SortIssues(s[1..]))
  }

  lemma {:induction false} InsertSorts(x: Issue, s: seq<Issue>)
    requires Ordered(s)
    ensures Ordered(Insert(x, s)) && multiset(Insert(x, s)) == multiset(s) + multiset{x}
  {
    if s != [] {
      assert s == [s[0]] + s[1..];
      if Leq(x, s[0]) {
        forall j | 0 <= j < |s|
          ensures Leq(x, s[j])
        {
          if j > 0 && x.iid == s[0].iid && s[0].iid == s[j].iid {
            TextLeqTransitive(x.id, s[0].id, s[j].id);
          }
        }
      } else {
        TextLeqTotal(x.id, s[0].id);
        InsertSorts(x, s[1..]);
        var t := Insert(x, s[1..]);
        forall j | 0 <= j < |t|
          ensures Leq(s[0], t[j])
        {
          assert t[j] in multiset(t);
          assert t[j] == x || t[j] in s[1..];
        }
      }
    }
  }

  lemma {:induction false} SortIssuesSorts(s: seq<Issue>)
    ensures Ordered(SortIssues(s)) && multiset(SortIssues(s)) == multiset(s)
  {
    if s != [] {
      SortIssuesSorts(s[1..]);
      InsertSorts(s[0], SortIssues(s[1..]));
      assert s == [s[0]] + s[1..];
    }
  }

  /** In the sorted list nobody is before one that ranks before it: `iid`s rise, and at equal
      `iid` the ids do. */
  lemma SortedByRank(s: seq<Issue>, j: nat, k: nat)
    requires j < k < |SortIssues(s)|
    ensures var t := SortIssues(s);
            && t[j].iid <= t[k].iid
            && (t[j].iid == t[k].iid ==> t[j].id == t[k].id || TextBefore(t[j].id, t[k].id))
            && !RanksBefore(t[k], t[j]) && multiset(t) == multiset(s)
  {
    SortIssuesSorts(s);
    var t := SortIssues(s);
    LeqMeans(t[j], t[k]);
    LeqMeans(t[k], t[j]);
    if RanksBefore(t[k], t[j]) {
      LeqBothWays(t[j], t[k]);
      TextBeforeIsStrict(t[j].id);
    }
  }

  lemma LeqBothWays(a: Issue, b: Issue)
    requires Leq(a, b) && Leq(b, a)
    ensures a.iid == b.iid && a.id == b.id
  {
    TextLeqBothWays(a.id, b.id);
  }

  lemma {:induction false} TextLeqBothWays(a: string, b: string)
    requires TextLeq(a, b) && TextLeq(b, a)
    ensures a == b
  {
    if a != "" && b != "" {
      TextLeqBothWays(a[1..], b[1..]);
      assert a == [a[0]] + a[1..] && b == [b[0]] + b[1..];
    }
  }

  lemma TextBeforeIsStrict(a: string)
    ensures !TextBefore(a, a)
  {}

  /** The candidates' ids. */
  function Ids(s: seq<Issue>): set<string> {
    set x | x in s :: x.id
  }

  predicate DistinctIds(s: seq<Issue>) {
    forall i, j :: 0 <= i < j < |s| ==> s[i].id != s[j].id
  }

  lemma SameMembers(s: seq<Issue>, t: seq<Issue>)
    requires multiset(s) == multiset(t)
    ensures (forall x :: x in s <==> x in t) && Ids(s) == Ids(t)
  {
    assert forall x :: x in s <==> x in multiset(s);
    assert forall x :: x in t <==> x in multiset(t);
  }

  lemma {:induction false} InsertKeepsDistinct(x: Issue, s: seq<Issue>)
    requires DistinctIds(s) && x.id !in Ids(s)
    ensures DistinctIds(Insert(x, s)) && Ids(Insert(x, s)) == Ids(s) + {x.id}
  {
    if s == [] || Leq(x, s[0]) {
      assert Insert(x, s) == [x] + s;
      forall j | 0 <= j < |s|
        ensures x.id != s[j].id
      {
        assert s[j] in s;
      }
    } else {
      var t := Insert(x, s[1..]);
      InsertKeepsDistinct(x, s[1..]);
      forall j | 0 <= j < |t|
        ensures s[0].id != t[j].id
      {
        assert t[j].id in Ids(t);
        assert s[0] in s;
      }
    }
  }

  lemma {:induction false} SortKeepsDistinct(s: seq<Issue>)
    requires DistinctIds(s)
    ensures DistinctIds(SortIssues(s))
  {
    if s != [] {
      SortKeepsDistinct(s[1..]);
      SortIssuesSorts(s[1..]);
      SameMembers(SortIssues(s[1..]), s[1..]);
      InsertKeepsDistinct(s[0], SortIssues(s[1..]));
    }
  }
}
