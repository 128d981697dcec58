/** The history of one issue, as far as its streak counters depend on it. */
module History {
  /** A failure was scheduled, a clean continuation was scheduled, the target changed. */
  datatype Mark = Fail | Clean | Move

  function FailuresSinceClean(h: seq<Mark>): nat {
    if h == [] then 0
    else match h[|h| - 1]
         case Fail => FailuresSinceClean(h[..|h| - 1]) + 1
         case Clean => 0
         case Move => FailuresSinceClean(h[..|h| - 1])
  }

  function CleansSinceBreak(h: seq<Mark>): nat {
    if h == [] || h[|h| - 1] != Clean then 0 else CleansSinceBreak(h[..|h| - 1]) + 1
  }

  lemma CountAfter(h: seq<Mark>, m: Mark)
    ensures FailuresSinceClean(h + [m]) ==
            match m { case Fail => FailuresSinceClean(h) + 1 case Clean => 0 case Move => FailuresSinceClean(h) }
    ensures CleansSinceBreak(h + [m]) == if m == Clean then CleansSinceBreak(h) + 1 else 0
  {
    assert (h + [m])[..|h + [m]| - 1] == h;
  }

  /** Entry `i` is a failure with no clean turn after it. */
  ghost predicate CountsAsFailure(h: seq<Mark>, i: int) {
    0 <= i < |h| && h[i] == Fail && forall j :: i < j < |h| ==> h[j] != Clean
  }

  /** Entry `i` is a clean turn with only clean turns after it. */
  ghost predicate CountsAsClean(h: seq<Mark>, i: int) {
    0 <= i < |h| && h[i] == Clean && forall j :: i < j < |h| ==> h[j] == Clean
  }

  ghost function FailurePositions(h: seq<Mark>): set<int> {
    set i | 0 <= i < |h| && CountsAsFailure(h, i)
  }

  ghost function CleanPositions(h: seq<Mark>): set<int> {
    set i | 0 <= i < |h| && CountsAsClean(h, i)
  }

  lemma FailureShifts(g: seq<Mark>, m: Mark, i: int)
    requires 0 <= i < |g| && m != Clean
    ensures CountsAsFailure(g + [m], i) <==> CountsAsFailure(g, i)
  {
    var h := g + [m];
    assert h[|g|] == m;
    if CountsAsFailure(h, i) {
      forall j | i < j < |g|
        ensures g[j] != Clean
      {
        assert h[j] == g[j];
      }
    }
  }

  lemma CleanShifts(g: seq<Mark>, i: int)
    requires 0 <= i < |g|
    ensures CountsAsClean(g + [Clean], i) <==> CountsAsClean(g, i)
  {
    var h := g + [Clean];
    if CountsAsClean(h, i) {
      forall j | i < j < |g|
        ensures g[j] == Clean
      {
        assert h[j] == g[j];
      }
    }
  }

  lemma {:induction false} FailuresCountPositions(h: seq<Mark>)
    ensures FailuresSinceClean(h) == |FailurePositions(h)|
  {
    if h == [] {
      assert FailurePositions(h) == {};
    } else {
      var n, m := |h| - 1, h[|h| - 1];
      var g := h[..n];
      FailuresCountPositions(g);
      assert h == g + [m];
      if m == Clean {
        assert forall i :: 0 <= i < n && CountsAsFailure(h, i) ==> h[n] != Clean;
        assert FailurePositions(h) == {};
      } else {
        forall i | 0 <= i < n
          ensures CountsAsFailure(h, i) <==> CountsAsFailure(g, i)
        {
          FailureShifts(g, m, i);
        }
        assert FailurePositions(h) == FailurePositions(g) + if m == Fail then {n} else {};
      }
    }
  }

  lemma {:induction false} CleansCountPositions(h: seq<Mark>)
    ensures CleansSinceBreak(h) == |CleanPositions(h)|
  {
    if h == [] {
      assert CleanPositions(h) == {};
    } else {
      var n := |h| - 1;
      var g := h[..n];
      CleansCountPositions(g);
      assert h == g + [h[n]];
      if h[n] == Clean {
        forall i | 0 <= i < n
          ensures CountsAsClean(h, i) <==> CountsAsClean(g, i)
        {
          CleanShifts(g, i);
        }
        assert CleanPositions(h) == CleanPositions(g) + {n};
      } else {
        assert forall i :: 0 <= i < n && CountsAsClean(h, i) ==> h[n] == Clean;
        assert CleanPositions(h) == {};
      }
    }
  }
}
