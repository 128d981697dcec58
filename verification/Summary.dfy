/** The streaming summary of an agent's output: what `_trim_summary` keeps, and why
    trimming after every piece does not change the text reported in the end. */
module Summary {
  /** Characters of the pieces from `i` on, one newline counted for each. */
  function Weight(parts: seq<string>, i: nat): nat
    requires i <= |parts|
    decreases |parts| - i
  {
    if i == |parts| then 0 else |parts[i]| + 1 + Weight(parts, i + 1)
  }

  /** The pieces from `k` on are the shortest nonempty suffix that weighs `n`, or everything. */
  ghost predicate IsCut(parts: seq<string>, n: int, k: nat) {
    && k <= |parts| && (parts != [] ==> k < |parts|)
    && (k == 0 || Weight(parts, k) >= n)
    && forall i :: k < i < |parts| ==> Weight(parts, i) < n
  }

  /** Where the kept pieces start, if those from `i` on are kept anyway. */
  function CutFrom(parts: seq<string>, n: int, i: nat): (k: nat)
    requires i <= |parts|
    ensures k <= i && (0 < i ==> k < i)
  {
    if i == 0 then 0
    else if Weight(parts, i - 1) >= n then i - 1
    else CutFrom(parts, n, i - 1)
  }

  /** What one trim keeps. */
  function Trim(parts: seq<string>, n: int): seq<string> {
    parts[CutFrom(parts, n, |parts|)..]
  }

  lemma {:induction false} CutFromIsCut(parts: seq<string>, n: int, i: nat)
    requires i <= |parts| && forall j :: i <= j < |parts| ==> Weight(parts, j) < n
    requires i == 0 ==> parts == [] || Weight(parts, 0) < n
    ensures IsCut(parts, n, CutFrom(parts, n, i))
  {
    if 0 < i && Weight(parts, i - 1) < n {
      CutFromIsCut(parts, n, i - 1);
    }
  }

  lemma {:induction false} WeightFalls(parts: seq<string>, i: nat, j: nat)
    requires i < j <= |parts|
    ensures Weight(parts, j) < Weight(parts, i)
    decreases j - i
  {
    if i + 1 < j {
      WeightFalls(parts, i + 1, j);
    }
  }

  lemma CutIsUnique(parts: seq<string>, n: int, k: nat, l: nat)
    requires IsCut(parts, n, k) && IsCut(parts, n, l)
    ensures k == l
  {}

  /** `Trim` keeps the shortest nonempty suffix that weighs `n`, or everything. */
  lemma TrimIsShortest(parts: seq<string>, n: int, k: nat)
    requires k <= |parts|
    ensures IsCut(parts, n, k) <==> k == CutFrom(parts, n, |parts|)
  {
    CutFromIsCut(parts, n, |parts|);
    if IsCut(parts, n, k) {
      CutIsUnique(parts, n, k, CutFrom(parts, n, |parts|));
    }
  }

  function Reversed<T>(s: seq<T>): (r: seq<T>)
    ensures |r| == |s| && forall k :: 0 <= k < |s| ==> r[k] == s[|s| - 1 - k]
  {
    if s == [] then [] else [s[|s| - 1]] + Reversed(s[..|s| - 1])
  }

  /** `_trim_summary`. */
  method TrimSummary(parts: seq<string>, n: int) returns (kept: seq<string>)
    ensures kept == Trim(parts, n)
  {
    var total, i := 0, |parts|;
    var backwards: seq<string> := [];
    while i > 0
      invariant 0 <= i <= |parts| && total == Weight(parts, i)
      invariant |backwards| == |parts| - i
      invariant forall k :: 0 <= k < |backwards| ==> backwards[k] == parts[|parts| - 1 - k]
      invariant CutFrom(parts, n, |parts|) == CutFrom(parts, n, i)
    {
      i := i - 1;
      total := total + |parts[i]| + 1;
      backwards := backwards + [parts[i]];
      if total >= n {
        break;
      }
    }
    kept := Reversed(backwards);
    assert kept == parts[i..];
  }

  // ----- trimming after every piece

  /** The parts kept after trimming once per piece. */
  function Stream(pieces: seq<string>, n: int): seq<string> {
    if pieces == [] then []
    else Trim(Stream(pieces[..|pieces| - 1], n) + [pieces[|pieces| - 1]], n)
  }

  lemma {:induction false} WeightShifts(parts: seq<string>, k: nat, x: string, j: nat)
    requires k <= |parts| && k + j <= |parts| + 1
    ensures Weight(parts[k..] + [x], j) == Weight(parts + [x], k + j)
    decreases |parts| + 1 - j
  {
    if k + j < |parts| + 1 {
      assert (parts[k..] + [x])[j] == (parts + [x])[k + j];
      WeightShifts(parts, k, x, j + 1);
    }
  }

  lemma {:induction false} WeightGrows(parts: seq<string>, x: string, j: nat)
    requires j <= |parts|
    ensures Weight(parts + [x], j) == Weight(parts, j) + |x| + 1
    decreases |parts| - j
  {
    if j < |parts| {
      WeightGrows(parts, x, j + 1);
    }
  }

  /** Cutting, appending and cutting again is appending and cutting once. */
  lemma CutsCompose(parts: seq<string>, x: string, n: int, k: nat, l: nat)
    requires IsCut(parts, n, k) && IsCut(parts[k..] + [x], n, l)
    ensures IsCut(parts + [x], n, k + l)
  {
    WeightShifts(parts, k, x, l);
    if l == 0 && 0 < k {
      WeightGrows(parts, x, k);
    }
    forall i | k + l < i < |parts| + 1
      ensures Weight(parts + [x], i) < n
    {
      WeightShifts(parts, k, x, i - k);
    }
  }

  lemma TrimCommutes(parts: seq<string>, x: string, n: int)
    ensures Trim(Trim(parts, n) + [x], n) == Trim(parts + [x], n)
  {
    var k := CutFrom(parts, n, |parts|);
    var shorter := parts[k..] + [x];
    var l := CutFrom(shorter, n, |shorter|);
    TrimIsShortest(parts, n, k);
    TrimIsShortest(shorter, n, l);
    CutsCompose(parts, x, n, k, l);
    TrimIsShortest(parts + [x], n, k + l);
    SuffixOfSuffix(parts, x, k, l);
  }

  lemma SuffixOfSuffix(parts: seq<string>, x: string, k: nat, l: nat)
    requires k <= |parts| && k + l <= |parts| + 1
    ensures (parts[k..] + [x])[l..] == (parts + [x])[k + l..]
  {}

  /** Trimming after every piece keeps what trimming once would keep, for every limit. */
  lemma {:induction false} StreamIsTrim(pieces: seq<string>, n: int)
    ensures Stream(pieces, n) == Trim(pieces, n)
  {
    if pieces != [] {
      var rest, last := pieces[..|pieces| - 1], pieces[|pieces| - 1];
      StreamIsTrim(rest, n);
      TrimCommutes(rest, last, n);
      assert rest + [last] == pieces;
    }
  }

  // ----- the reported text

  /** `"\n".join` of the parts from `i` on */
  function JoinFrom(parts: seq<string>, i: nat): string
    requires i < |parts|
    decreases |parts| - i
  {
    if i + 1 == |parts| then parts[i] else parts[i] + "\n" + JoinFrom(parts, i + 1)
  }

  function Join(parts: seq<string>): string {
    if parts == [] then "" else JoinFrom(parts, 0)
  }

  /** `s[-n:]` */
  function LastChars(s: string, n: int): (r: string)
    ensures 0 < n ==> |r| == (if n < |s| then n else |s|) && r == s[|s| - |r|..]
  {
    if n > 0 then if n >= |s| then s else s[|s| - n..]
    else if -n >= |s| then "" else s[-n..]
  }

  lemma {:induction false} JoinWeighs(parts: seq<string>, i: nat)
    requires i < |parts|
    ensures |JoinFrom(parts, i)| + 1 == Weight(parts, i)
    decreases |parts| - i
  {
    if i + 1 < |parts| {
      JoinWeighs(parts, i + 1);
    }
  }

  lemma {:induction false} JoinOfSuffix(parts: seq<string>, k: nat, i: nat)
    requires k + i < |parts|
    ensures JoinFrom(parts[k..], i) == JoinFrom(parts, k + i)
    decreases |parts| - i
  {
    if k + i + 1 < |parts| {
      JoinOfSuffix(parts, k, i + 1);
    }
  }

  lemma {:induction false} JoinSplits(parts: seq<string>, i: nat, k: nat) returns (before: string)
    requires i < k < |parts|
    ensures JoinFrom(parts, i) == before + "\n" + JoinFrom(parts, k)
    decreases k - i
  {
    if i + 1 == k {
      before := parts[i];
    } else {
      var middle := JoinSplits(parts, i + 1, k);
      before := parts[i] + "\n" + middle;
    }
  }

  lemma LastOfJoined(before: string, text: string, n: int)
    requires 1 <= n <= |text| + 1
    ensures LastChars(before + "\n" + text, n) == (if n == |text| + 1 then "\n" else "") + LastChars(text, n)
  {}

  /** Some proper suffix of the pieces weighs exactly `n`. */
  ghost predicate HitsExactly(pieces: seq<string>, n: int) {
    exists i :: 0 < i < |pieces| && Weight(pieces, i) == n
  }

  lemma OnlyTheCutHits(pieces: seq<string>, n: int, k: nat)
    requires IsCut(pieces, n, k)
    ensures HitsExactly(pieces, n) <==> 0 < k < |pieces| && Weight(pieces, k) == n
  {
    forall i | 0 < i < k && k < |pieces|
      ensures Weight(pieces, i) != n
    {
      WeightFalls(pieces, i, k);
    }
    if k == 0 && 1 < |pieces| {
      assert forall i :: 0 < i < |pieces| ==> Weight(pieces, i) < n;
    }
  }

  /** The text of the kept parts against the text of all of them: the same last `n`
      characters, but for one newline in front when a proper suffix weighs exactly `n`. */
  lemma TextOfTrim(pieces: seq<string>, n: int)
    requires 1 <= n
    ensures var full, text := LastChars(Join(pieces), n), LastChars(Join(Trim(pieces, n)), n);
            && full == (if HitsExactly(pieces, n) then "\n" else "") + text
            && (full == text <==> !HitsExactly(pieces, n))
  {
    var k := CutFrom(pieces, n, |pieces|);
    TrimIsShortest(pieces, n, k);
    OnlyTheCutHits(pieces, n, k);
    if 0 < k {
      JoinWeighs(pieces, k);
      JoinOfSuffix(pieces, k, 0);
      var before := JoinSplits(pieces, 0, k);
      LastOfJoined(before, JoinFrom(pieces, k), n);
    } else {
      assert pieces[k..] == pieces;
    }
  }

  /** The pieces the reader adds to the summary. */
  function Nonempty(pieces: seq<string>): seq<string> {
    if pieces == [] then []
    else Nonempty(pieces[..|pieces| - 1]) + if pieces[|pieces| - 1] != "" then [pieces[|pieces| - 1]] else []
  }

  lemma StreamNext(pieces: seq<string>, i: nat, n: int)
    requires i < |pieces|
    ensures Stream(Nonempty(pieces[..i + 1]), n) ==
            if pieces[i] != "" then Trim(Stream(Nonempty(pieces[..i]), n) + [pieces[i]], n)
            else Stream(Nonempty(pieces[..i]), n)
  {
    assert pieces[..i + 1][..i] == pieces[..i];
    var seen := Nonempty(pieces[..i]);
    if pieces[i] != "" {
      assert (seen + [pieces[i]])[..|seen|] == seen;
    } else {
      assert seen + [] == seen;
    }
  }

  /** The reader's use of the summary: for a positive limit the reported text is the last
      `n` characters of the whole output, one leading newline excepted in the exact case.
      The configuration does not rule out other limits; those keep only the last piece. */
  method Report(pieces: seq<string>, n: int) returns (text: string)
    ensures var all := Nonempty(pieces);
            if 1 <= n then LastChars(Join(all), n) == (if HitsExactly(all, n) then "\n" else "") + text
            else text == LastChars(if all == [] then "" else all[|all| - 1], n)
  {
    var parts: seq<string> := [];
    for i := 0 to |pieces|
      invariant parts == Stream(Nonempty(pieces[..i]), n)
    {
      StreamNext(pieces, i, n);
      if pieces[i] != "" {
        parts := TrimSummary(parts + [pieces[i]], n);
      }
    }
    assert pieces[..|pieces|] == pieces;
    StreamIsTrim(Nonempty(pieces), n);
    if 1 <= n {
      TextOfTrim(Nonempty(pieces), n);
    }
    text := LastChars(Join(parts), n);
  }
}
