/** The search for a session id in one JSON record of the agent's output. */
module SessionSearch {
  import opened Wrappers

  /** A parsed record; other scalars carry no text the search could use. */
  datatype Json =
    | Scalar
    | Text(text: string)
    | Array(items: seq<Json>)
    | Object(fields: seq<Field>)

  datatype Field = Field(key: string, value: Json)

  predicate SessionKey(key: string) {
    key == "session_id" || key == "sessionId" || key == "thread_id" || key == "threadId"
  }

  /** The characters `str.strip` removes. */
  predicate Space(c: char) {
    || '\t' <= c <= '\r' || '\U{1c}' <= c <= ' ' || c == '\U{85}' || c == '\U{a0}' || c == '\U{1680}'
    || '\U{2000}' <= c <= '\U{200a}' || c == '\U{2028}' || c == '\U{2029}' || c == '\U{202f}' || c == '\U{205f}'
    || c == '\U{3000}'
  }

  function StripLeft(s: string): (r: string)
    ensures |r| <= |s| && r == s[|s| - |r|..] && forall i :: 0 <= i < |s| - |r| ==> Space(s[i])
    ensures r != "" ==> !Space(r[0])
  {
    if s != "" && Space(s[0]) then StripLeft(s[1..]) else s
  }

  function StripRight(s: string): (r: string)
    ensures |r| <= |s| && r == s[..|r|] && forall i :: |r| <= i < |s| ==> Space(s[i])
    ensures r != "" ==> !Space(r[|r| - 1])
  {
    if s != "" && Space(s[|s| - 1]) then StripRight(s[..|s| - 1]) else s
  }

  /** `str.strip` */
  function Strip(s: string): (r: string)
    ensures r != "" ==> !Space(r[0]) && !Space(r[|r| - 1])
  {
    StripRight(StripLeft(s))
  }

  predicate Blank(s: string) {
    forall i | 0 <= i < |s| :: Space(s[i])
  }

  /** What is stripped is a blank beginning, up to `i`, and a blank end. */
  lemma StripMeans(s: string) returns (i: nat)
    ensures i + |Strip(s)| <= |s| && s[i..i + |Strip(s)|] == Strip(s)
    ensures forall k :: 0 <= k < i || i + |Strip(s)| <= k < |s| ==> Space(s[k])
  {
    var left := StripLeft(s);
    i := |s| - |left|;
    assert forall k :: i <= k < |s| ==> s[k] == left[k - i];
  }

  lemma StripOfBlank(s: string)
    ensures Strip(s) == "" <==> Blank(s)
  {
    var left := StripLeft(s);
    assert left != "" ==> left[0] == s[|s| - |left|];
    assert StripRight(left) == "" ==> Blank(left);
  }

  function Size(v: Json): nat {
    match v
    case Array(items) => |items|
    case Object(fields) => |fields|
    case _ => 0
  }

  function Child(v: Json, i: nat): Json
    requires i < Size(v)
  {
    if v.Array? then v.items[i] else v.fields[i].value
  }

  /** A nonblank text under a session key. */
  predicate Hit(v: Json, i: nat)
    requires i < Size(v)
  {
    v.Object? && SessionKey(v.fields[i].key) && Child(v, i).Text? && !Blank(Child(v, i).text)
  }

  /** The test of the loop. */
  predicate Accepts(v: Json, i: nat)
    requires i < Size(v)
  {
    v.Object? && SessionKey(v.fields[i].key) && Child(v, i).Text? && Strip(Child(v, i).text) != ""
  }

  lemma AcceptsHits(v: Json, i: nat)
    requires i < Size(v)
    ensures Accepts(v, i) <==> Hit(v, i)
  {
    if Child(v, i).Text? {
      StripOfBlank(Child(v, i).text);
    }
  }

  /** `_recursive_session_id` */
  function Search(v: Json): Option<string>
    decreases v, Size(v) + 1
  {
    SearchFrom(v, 0)
  }

  /** The loop of the search over the children of `v`, from child `i` on. */
  function SearchFrom(v: Json, i: nat): Option<string>
    requires i <= Size(v)
    decreases v, Size(v) - i
  {
    if i == Size(v) then None
    else if Accepts(v, i) then Some(Strip(Child(v, i).text))
    else
      match Search(Child(v, i))
      case Some(found) => Some(found)
      case None => SearchFrom(v, i + 1)
  }

  // ----- what the search means, by the places in the tree

  /** `path` leads from `v` to a hit. */
  predicate Leads(v: Json, path: seq<nat>)
    decreases |path|
  {
    path != [] && path[0] < Size(v)
    && if |path| == 1 then Hit(v, path[0]) else Leads(Child(v, path[0]), path[1..])
  }

  function Found(v: Json, path: seq<nat>): string
    requires Leads(v, path)
    decreases |path|
  {
    if |path| == 1 then Strip(Child(v, path[0]).text) else Found(Child(v, path[0]), path[1..])
  }

  /** Place `p` comes before place `q` in the order the record is written. */
  predicate Precedes(p: seq<nat>, q: seq<nat>)
    decreases |p|
  {
    q != [] && (p == [] || p[0] < q[0] || (p[0] == q[0] && Precedes(p[1..], q[1..])))
  }

  /** `path` leads to the first hit among the children of `v` from `i` on. */
  ghost predicate First(v: Json, i: nat, path: seq<nat>) {
    && Leads(v, path) && i <= path[0]
    && forall q: seq<nat> | Leads(v, q) && i <= q[0] && q != path :: Precedes(path, q)
  }

  ghost predicate Barren(v: Json, i: nat) {
    forall q: seq<nat> | Leads(v, q) :: q[0] < i
  }

  lemma HitIsLeaf(v: Json, i: nat, q: seq<nat>)
    requires i < Size(v) && Hit(v, i) && Leads(v, q) && q[0] == i
    ensures q == [i]
  {}

  lemma FirstHere(v: Json, i: nat)
    requires i < Size(v) && Hit(v, i)
    ensures First(v, i, [i])
  {
    forall q: seq<nat> | Leads(v, q) && i <= q[0] && q != [i]
      ensures Precedes([i], q)
    {
      if q[0] == i {
        HitIsLeaf(v, i, q);
      }
    }
  }

  lemma FirstBelow(v: Json, i: nat, path: seq<nat>)
    requires i < Size(v) && !Hit(v, i) && First(Child(v, i), 0, path)
    ensures First(v, i, [i] + path) && Found(v, [i] + path) == Found(Child(v, i), path)
  {
    assert ([i] + path)[1..] == path;
    forall q: seq<nat> | Leads(v, q) && i <= q[0] && q != [i] + path
      ensures Precedes([i] + path, q)
    {
      if q[0] == i {
        assert q == [i] + q[1..];
        assert Precedes(path, q[1..]);
      }
    }
  }

  lemma LeadsBelow(v: Json, i: nat)
    requires i < Size(v) && !Hit(v, i)
    ensures forall q: seq<nat> | Leads(v, q) && q[0] == i :: Leads(Child(v, i), q[1..])
  {}

  /** The place the loop from child `i` on stops at. */
  lemma {:induction false} SearchFromFinds(v: Json, i: nat) returns (path: seq<nat>)
    requires i <= Size(v)
    ensures match SearchFrom(v, i)
            case None => Barren(v, i)
            case Some(found) => First(v, i, path) && found == Found(v, path)
    decreases v, Size(v) - i
  {
    path := [];
    if i < Size(v) {
      AcceptsHits(v, i);
      if Hit(v, i) {
        path := [i];
        FirstHere(v, i);
      } else {
        LeadsBelow(v, i);
        var below := SearchFromFinds(Child(v, i), 0);
        if Search(Child(v, i)).Some? {
          path := [i] + below;
          FirstBelow(v, i, below);
        } else {
          path := SearchFromFinds(v, i + 1);
        }
      }
    }
  }

  /** There is a hit at `path`. */
  predicate HasHit(v: Json, path: seq<nat>) {
    Leads(v, path)
  }

  /** A key for sessions with a text that is not blank. */
  predicate NamesHere(f: Field) {
    f.key in {"session_id", "sessionId", "thread_id", "threadId"} && f.value.Text? && !Blank(f.value.text)
  }

  /** There is one somewhere in the record, in objects and arrays of any depth. */
  predicate NamesSession(v: Json) {
    match v
    case Object(fields) => exists i | 0 <= i < |fields| :: NamesHere(fields[i]) || NamesSession(fields[i].value)
    case Array(items) => exists i | 0 <= i < |items| :: NamesSession(items[i])
    case _ => false
  }

  lemma {:induction false} PathNamesSession(v: Json, path: seq<nat>)
    requires Leads(v, path)
    ensures NamesSession(v)
    decreases |path|
  {
    if |path| > 1 {
      PathNamesSession(Child(v, path[0]), path[1..]);
    }
  }

  lemma {:induction false} SessionHasPath(v: Json) returns (path: seq<nat>)
    requires NamesSession(v)
    ensures Leads(v, path)
    decreases v
  {
    if v.Array? {
      var i :| 0 <= i < |v.items| && NamesSession(v.items[i]);
      var below := SessionHasPath(v.items[i]);
      path := [i] + below;
      assert path[1..] == below;
    } else {
      var i :| 0 <= i < |v.fields| && (NamesHere(v.fields[i]) || NamesSession(v.fields[i].value));
      if NamesHere(v.fields[i]) {
        path := [i];
      } else {
        var below := SessionHasPath(v.fields[i].value);
        path := [i] + below;
        assert path[1..] == below;
      }
    }
  }

  /** The search is complete: it finds something just when a session is named anywhere. */
  lemma SearchIsComplete(v: Json)
    ensures Search(v).Some? <==> NamesSession(v)
  {
    SearchFindsPaths(v);
    if NamesSession(v) {
      var path := SessionHasPath(v);
      assert HasHit(v, path);
    }
    forall path | HasHit(v, path)
      ensures NamesSession(v)
    {
      PathNamesSession(v, path);
    }
  }

  lemma SearchFindsPaths(v: Json)
    ensures Search(v).Some? <==> exists path :: HasHit(v, path)
  {
    assert forall q: seq<nat> :: Leads(v, q) ==> 0 <= q[0];
    var path := SearchFromFinds(v, 0);
    assert Search(v).Some? ==> HasHit(v, path);
  }

  /** `found` is the text at the first hit of the record. */
  ghost predicate FirstHit(v: Json, path: seq<nat>, found: string) {
    First(v, 0, path) && Found(v, path) == found
  }

  /** The search is sound and stops at the first hit: it returns just the text there,
      which is trimmed and not blank. */
  lemma SearchIsFirst(v: Json, found: string)
    ensures Search(v) == Some(found) <==> exists path :: FirstHit(v, path, found)
    ensures Search(v) == Some(found) ==> found != "" && Strip(found) == found
  {
    SearchFindsPaths(v);
    var p := SearchFromFinds(v, 0);
    if Search(v) == Some(found) {
      assert FirstHit(v, p, found);
      FoundIsTrimmed(v, p);
    }
    forall path | FirstHit(v, path, found)
      ensures Search(v) == Some(found)
    {
      assert HasHit(v, path);
      FirstIsUnique(v, p, path);
    }
  }

  lemma FirstIsUnique(v: Json, p: seq<nat>, q: seq<nat>)
    requires First(v, 0, p) && First(v, 0, q)
    ensures p == q
  {
    if p != q {
      assert Precedes(p, q);
      PrecedesIsStrict(p, q);
    }
  }

  lemma {:induction false} PrecedesIsStrict(p: seq<nat>, q: seq<nat>)
    requires Precedes(p, q)
    ensures !Precedes(q, p)
    decreases |p|
  {
    if p != [] && p[0] == q[0] {
      PrecedesIsStrict(p[1..], q[1..]);
    }
  }

  lemma {:induction false} FoundIsTrimmed(v: Json, path: seq<nat>)
    requires Leads(v, path)
    ensures Found(v, path) != "" && Strip(Found(v, path)) == Found(v, path)
    decreases |path|
  {
    if |path| > 1 {
      FoundIsTrimmed(Child(v, path[0]), path[1..]);
    }
  }

  // ----- the configured places come first

  /** The value of a key; a parsed object has each key once. */
  function Lookup(fields: seq<Field>, key: string): Option<Json> {
    if fields == [] then None
    else if fields[0].key == key then Some(fields[0].value)
    else Lookup(fields[1..], key)
  }

  /** The nonblank text at the end of a configured path, trimmed. */
  function AtPath(v: Json, segments: seq<string>): Option<string>
    decreases |segments|
  {
    if segments == [] then
      if v.Text? && Strip(v.text) != "" then Some(Strip(v.text)) else None
    else if !v.Object? then None
    else match Lookup(v.fields, segments[0])
         case None => None
         case Some(next) => AtPath(next, segments[1..])
  }

  /** `values` are the values met on the way along the path: each is that of the first field
      of the one before it that has the key. */
  ghost predicate Way(v: Json, segments: seq<string>, values: seq<Json>) {
    && |values| == |segments| + 1 && values[0] == v
    && forall n | 0 <= n < |segments| :: ValueOf(values[n], segments[n], values[n + 1])
  }

  ghost predicate ValueOf(v: Json, key: string, value: Json) {
    v.Object? && exists i :: FieldAt(v.fields, key, i) && v.fields[i].value == value
  }

  predicate FieldAt(fields: seq<Field>, key: string, i: int) {
    0 <= i < |fields| && fields[i].key == key && forall j | 0 <= j < i :: fields[j].key != key
  }

  /** The way ends at a text that is not blank. */
  ghost predicate EndsAtText(v: Json, segments: seq<string>, text: string) {
    exists values :: Way(v, segments, values) && values[|segments|] == Text(text) && !Blank(text)
  }

  lemma {:induction false} LookupMeans(fields: seq<Field>, key: string, value: Json)
    ensures Lookup(fields, key) == Some(value) <==> ValueOf(Object(fields), key, value)
  {
    if fields != [] {
      var rest := fields[1..];
      LookupMeans(rest, key, value);
      if fields[0].key == key {
        assert FieldAt(fields, key, 0);
        assert forall i :: FieldAt(fields, key, i) ==> i == 0;
      } else {
        forall i | 0 < i
          ensures FieldAt(fields, key, i) <==> FieldAt(rest, key, i - 1)
        {
          assert forall j | 0 <= j < |rest| :: rest[j] == fields[j + 1];
          if FieldAt(rest, key, i - 1) {
            assert forall j | 0 < j < i :: fields[j] == rest[j - 1];
          }
        }
        if i :| FieldAt(rest, key, i) && rest[i].value == value {
          assert FieldAt(fields, key, i + 1);
        }
        if i :| FieldAt(fields, key, i) && fields[i].value == value {
          assert FieldAt(rest, key, i - 1);
        }
      }
    }
  }

  lemma WayBelow(v: Json, segments: seq<string>, next: Json, text: string)
    requires segments != [] && ValueOf(v, segments[0], next) && EndsAtText(next, segments[1..], text)
    ensures EndsAtText(v, segments, text)
  {
    var below :| Way(next, segments[1..], below) && below[|segments| - 1] == Text(text);
    var values := [v] + below;
    forall n | 0 <= n < |segments|
      ensures ValueOf(values[n], segments[n], values[n + 1])
    {
      assert 0 < n ==> segments[1..][n - 1] == segments[n];
    }
    assert Way(v, segments, values) && values[|segments|] == Text(text);
  }

  lemma WayStarts(v: Json, segments: seq<string>, text: string) returns (next: Json)
    requires segments != [] && EndsAtText(v, segments, text)
    ensures ValueOf(v, segments[0], next) && EndsAtText(next, segments[1..], text)
  {
    var values :| Way(v, segments, values) && values[|segments|] == Text(text) && !Blank(text);
    next := values[1];
    assert Way(next, segments[1..], values[1..]);
    assert values[1..][|segments[1..]|] == Text(text);
  }

  lemma EmptyWay(v: Json, text: string)
    ensures EndsAtText(v, [], text) <==> v == Text(text) && !Blank(text)
  {
    if v == Text(text) && !Blank(text) {
      assert Way(v, [], [v]);
    }
  }

  /** A path is followed as far as it leads: `AtPath` is the trimmed text at its end, if there is one. */
  lemma {:induction false} AtPathFinds(v: Json, segments: seq<string>) returns (text: string)
    requires AtPath(v, segments).Some?
    ensures EndsAtText(v, segments, text) && AtPath(v, segments) == Some(Strip(text))
    decreases |segments|
  {
    if segments == [] {
      text := v.text;
      StripOfBlank(text);
      EmptyWay(v, text);
    } else {
      var next := Lookup(v.fields, segments[0]).value;
      LookupMeans(v.fields, segments[0], next);
      text := AtPathFinds(next, segments[1..]);
      WayBelow(v, segments, next, text);
    }
  }

  lemma {:induction false} AtPathIsFound(v: Json, segments: seq<string>, text: string)
    requires EndsAtText(v, segments, text)
    ensures AtPath(v, segments) == Some(Strip(text))
    decreases |segments|
  {
    if segments == [] {
      EmptyWay(v, text);
      StripOfBlank(text);
    } else {
      var next := WayStarts(v, segments, text);
      LookupMeans(v.fields, segments[0], next);
      AtPathIsFound(next, segments[1..], text);
    }
  }

  /** The way ends at a text that is not blank, which is `found` when trimmed. */
  ghost predicate Yields(v: Json, segments: seq<string>, found: string) {
    exists text :: EndsAtText(v, segments, text) && Strip(text) == found
  }

  ghost predicate Fruitless(v: Json, segments: seq<string>) {
    forall text :: !EndsAtText(v, segments, text)
  }

  /** What a configured path yields, key by key. */
  lemma AtPathMeans(v: Json, segments: seq<string>, found: string)
    ensures AtPath(v, segments) == Some(found) <==> Yields(v, segments, found)
    ensures AtPath(v, segments) == None <==> Fruitless(v, segments)
  {
    if AtPath(v, segments).Some? {
      var text := AtPathFinds(v, segments);
    }
    forall text | EndsAtText(v, segments, text)
      ensures AtPath(v, segments) == Some(Strip(text))
    {
      AtPathIsFound(v, segments, text);
    }
  }

  /** Path `i` is the first configured one that ends at a nonblank text. */
  ghost predicate Decides(record: Json, paths: seq<seq<string>>, i: nat) {
    i < |paths| && AtPath(record, paths[i]).Some? && forall j | 0 <= j < i :: AtPath(record, paths[j]).None?
  }

  predicate Trimmed(s: string) {
    s != "" && !Space(s[0]) && !Space(s[|s| - 1])
  }

  /** `_extract_session_id`; every path is given by its segments. */
  method ExtractSessionId(record: Json, paths: seq<seq<string>>) returns (id: Option<string>)
    ensures if exists i: nat :: Decides(record, paths, i)
            then exists i: nat :: Decides(record, paths, i) && id == AtPath(record, paths[i])
            else id == Search(record)
    ensures id.Some? ==> Trimmed(id.value)
  {
    for n := 0 to |paths|
      invariant forall i | 0 <= i < n :: AtPath(record, paths[i]).None?
    {
      id := AtPath(record, paths[n]);
      if id.Some? {
        assert Decides(record, paths, n);
        AtPathIsTrimmed(record, paths[n]);
        return;
      }
    }
    id := Search(record);
    FoundIsNeverBlank(record);
  }

  lemma FoundIsNeverBlank(record: Json)
    ensures Search(record).Some? ==> Trimmed(Search(record).value)
  {
    if Search(record).Some? {
      SearchIsFirst(record, Search(record).value);
      assert Strip(Search(record).value) == Search(record).value;
    }
  }

  lemma {:induction false} AtPathIsTrimmed(v: Json, segments: seq<string>)
    requires AtPath(v, segments).Some?
    ensures Trimmed(AtPath(v, segments).value)
    decreases |segments|
  {
    if segments != [] {
      AtPathIsTrimmed(Lookup(v.fields, segments[0]).value, segments[1..]);
    }
  }
}
