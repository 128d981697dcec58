/** The strings that name an issue: its scheduler id, its identifier, its workspace key. */
module Identity {
  import opened Wrappers

  // ----- decimal integers

  function Digit(d: nat): char
    requires d < 10
  {
    '0' + d as char
  }

  predicate IsDigit(c: char) {
    '0' <= c <= '9'
  }

  function Digits(n: nat): (s: string)
    ensures s != "" && forall i :: 0 <= i < |s| ==> IsDigit(s[i])
  {
    (if n < 10 then "" else Digits(n / 10)) + [Digit(n % 10)]
  }

  function IntText(n: int): string {
    if n < 0 then "-" + Digits(-n) else Digits(n)
  }

  function DigitsValue(s: string): (n: Option<int>)
    ensures n.Some? ==> 0 <= n.value
  {
    if s == "" then None
    else
      var rest, last := s[..|s| - 1], s[|s| - 1];
      if !IsDigit(last) then None
      else if rest == "" then Some((last - '0') as int)
      else match DigitsValue(rest) { case None => None case Some(n) => Some(10 * n + (last - '0') as int) }
  }

  /** `int` of a text of decimal digits with or without a sign. */
  function IntValue(s: string): Option<int> {
    if s != "" && (s[0] == '-' || s[0] == '+') then
      match DigitsValue(s[1..])
      case None => None
      case Some(n) => Some(if s[0] == '-' then -n else n)
    else match DigitsValue(s) { case None => None case Some(n) => Some(n) }
  }

  lemma {:induction false} DigitsRoundTrip(n: nat)
    ensures DigitsValue(Digits(n)) == Some(n)
  {
    var s := Digits(n);
    if n >= 10 {
      DigitsRoundTrip(n / 10);
      assert s[..|s| - 1] == Digits(n / 10);
    } else {
      assert s == [Digit(n)];
    }
  }

  lemma SignedValue(digits: string, n: int)
    requires DigitsValue(digits) == Some(n)
    ensures IntValue("-" + digits) == Some(-n)
  {
    assert ("-" + digits)[0] == '-' && ("-" + digits)[1..] == digits;
  }

  lemma PlainValue(digits: string, n: int)
    requires DigitsValue(digits) == Some(n) && digits != "" && IsDigit(digits[0])
    ensures IntValue(digits) == Some(n)
  {}

  lemma IntRoundTrip(n: int)
    ensures IntValue(IntText(n)) == Some(n)
  {
    var size: int := if n < 0 then -n else n;
    var digits := Digits(size);
    DigitsRoundTrip(size);
    SignedValue(digits, size);
    PlainValue(digits, size);
  }

  lemma IntTextIsPlain(n: int, mark: char)
    requires !IsDigit(mark) && mark != '-'
    ensures mark !in IntText(n)
  {
    var s := IntText(n);
    assert forall i :: 0 <= i < |s| ==> s[i] != mark;
  }

  // ----- the scheduler id

  /** `text.rsplit(mark, 1)`, when `mark` is there. */
  function SplitLast(text: string, mark: char): Option<(string, string)> {
    if text == "" then None
    else
      var rest, last := text[..|text| - 1], text[|text| - 1];
      if last == mark then Some((rest, ""))
      else match SplitLast(rest, mark) { case None => None case Some((a, b)) => Some((a, b + [last])) }
  }

  lemma {:induction false} SplitLastMeans(text: string, mark: char, a: string, b: string)
    ensures SplitLast(text, mark) == Some((a, b)) <==> text == a + [mark] + b && mark !in b
    decreases |text|
  {
    if text != "" {
      var rest, last := text[..|text| - 1], text[|text| - 1];
      assert text == rest + [last];
      if last == mark {
        if b == "" {
          assert a + [mark] + b == a + [mark];
        } else {
          assert (a + [mark] + b)[|a| + |b|] == b[|b| - 1];
        }
      } else if b != "" {
        SplitLastMeans(rest, mark, a, b[..|b| - 1]);
        assert a + [mark] + b == a + [mark] + b[..|b| - 1] + [b[|b| - 1]];
        assert b == b[..|b| - 1] + [b[|b| - 1]];
      }
    }
  }

  /** The id `_normalize` gives an issue. */
  function SchedulerId(project: string, iid: int): string {
    project + ":" + IntText(iid)
  }

  datatype Lookup = InvalidId | ForeignProject(project: string) | Fetch(iid: int)

  /** What `get_issue` makes of an id, up to its request. */
  function LookUp(id: string, project: string): Lookup {
    match SplitLast(id, ':')
    case None => InvalidId
    case Some((own, text)) =>
      match IntValue(text)
      case None => InvalidId
      case Some(iid) => if own != project then ForeignProject(own) else Fetch(iid)
  }

  /** Every id the tracker makes is looked up again as the same issue, whatever the
      project string, colons included; and under another project it is refused. */
  lemma IdRoundTrip(project: string, iid: int, configured: string)
    ensures LookUp(SchedulerId(project, iid), configured) ==
            if project == configured then Fetch(iid) else ForeignProject(project)
  {
    IntRoundTrip(iid);
    IntTextIsPlain(iid, ':');
    SplitLastMeans(SchedulerId(project, iid), ':', project, IntText(iid));
  }

  /** Exactly which ids make `get_issue` fetch issue `iid`. */
  lemma FetchMeans(id: string, project: string, iid: int)
    ensures LookUp(id, project) == Fetch(iid)
            <==> |project| < |id| && id[..|project|] == project && id[|project|] == ':' && ':' !in id[|project| + 1..]
                 && IntValue(id[|project| + 1..]) == Some(iid)
  {
    match SplitLast(id, ':')
    case None =>
      if |project| < |id| {
        SplitLastMeans(id, ':', id[..|project|], id[|project| + 1..]);
        assert id == id[..|project|] + [id[|project|]] + id[|project| + 1..];
      }
    case Some((own, text)) =>
      SplitLastMeans(id, ':', own, text);
      assert id[|own| + 1..] == text;
      if |project| < |id| {
        SplitLastMeans(id, ':', id[..|project|], id[|project| + 1..]);
        assert id == id[..|project|] + [id[|project|]] + id[|project| + 1..];
      }
  }

  // ----- the workspace key

  /** The identifier `_normalize` gives an issue. */
  function Identifier(project: string, iid: int): string {
    project + "#" + IntText(iid)
  }

  lemma IdentifierInjective(p: string, i: int, q: string, j: int)
    ensures Identifier(p, i) == Identifier(q, j) <==> p == q && i == j
  {
    IntRoundTrip(i);
    IntRoundTrip(j);
    IntTextIsPlain(i, '#');
    IntTextIsPlain(j, '#');
    SplitLastMeans(Identifier(p, i), '#', p, IntText(i));
    SplitLastMeans(Identifier(q, j), '#', q, IntText(j));
  }

  predicate KeyChar(c: char) {
    'A' <= c <= 'Z' || 'a' <= c <= 'z' || '0' <= c <= '9' || c == '.' || c == '_' || c == '-'
  }

  function Sanitized(s: string): (r: string)
    ensures |r| == |s| && forall i :: 0 <= i < |s| ==> r[i] == if KeyChar(s[i]) then s[i] else '_'
  {
    seq(|s|, i requires 0 <= i < |s| => if KeyChar(s[i]) then s[i] else '_')
  }

  const DIGEST_CHARS := 16

  /** `workspace_key`; `digest` is the hexadecimal SHA-256 prefix of a text. */
  function WorkspaceKey(s: string, digest: string -> string): string {
    if Sanitized(s) == s then s else Sanitized(s) + "-" + digest(s)
  }

  /** Exactly when two identifiers share a key: their sanitized forms and digests agree,
      or one of them is the other's key. */
  lemma SharedKeyMeans(a: string, b: string, digest: string -> string)
    requires |digest(a)| == |digest(b)| == DIGEST_CHARS && a != b
    ensures WorkspaceKey(a, digest) == WorkspaceKey(b, digest)
            <==> || (Sanitized(a) == Sanitized(b) && digest(a) == digest(b) && Sanitized(a) != a && Sanitized(b) != b)
                 || (Sanitized(a) == a && Sanitized(b) != b && a == WorkspaceKey(b, digest))
                 || (Sanitized(b) == b && Sanitized(a) != a && b == WorkspaceKey(a, digest))
  {
    var x, y := Sanitized(a) + "-" + digest(a), Sanitized(b) + "-" + digest(b);
    if x == y {
      assert x[..|a|] == Sanitized(a) && y[..|b|] == Sanitized(b);
      assert x[|a| + 1..] == digest(a) && y[|b| + 1..] == digest(b);
    }
  }

  lemma IdentifiersAreSanitized(project: string, iid: int)
    ensures Sanitized(Identifier(project, iid)) != Identifier(project, iid)
  {
    assert Identifier(project, iid)[|project|] == '#';
  }

  /** Identifiers the tracker makes share a key only if they are the same, or the digest
      collides on them. */
  lemma TrackerKeysAreDistinct(p: string, i: int, q: string, j: int, digest: string -> string)
    requires |digest(Identifier(p, i))| == |digest(Identifier(q, j))| == DIGEST_CHARS
    ensures WorkspaceKey(Identifier(p, i), digest) == WorkspaceKey(Identifier(q, j), digest)
            <==> (p == q && i == j)
                 || (Sanitized(Identifier(p, i)) == Sanitized(Identifier(q, j))
                     && digest(Identifier(p, i)) == digest(Identifier(q, j)))
  {
    IdentifierInjective(p, i, q, j);
    IdentifiersAreSanitized(p, i);
    IdentifiersAreSanitized(q, j);
    if !(p == q && i == j) {
      SharedKeyMeans(Identifier(p, i), Identifier(q, j), digest);
    }
  }

  /** Among all identifiers the key is never injective, however good the digest: the key of
      any identifier that needs sanitizing is an identifier with that same key. */
  lemma KeysCollideOutsideTheTracker(s: string, digest: string -> string)
    requires Sanitized(s) != s && forall i | 0 <= i < |digest(s)| :: KeyChar(digest(s)[i])
    ensures var k := WorkspaceKey(s, digest);
            k != s && WorkspaceKey(k, digest) == WorkspaceKey(s, digest)
  {
    var k := WorkspaceKey(s, digest);
    assert forall i | 0 <= i < |k| :: KeyChar(k[i]);
    assert Sanitized(k) == k;
  }
}
