/** The durable records as files named by workspace key, used as a map from identifiers. */
module StateStore {
  import opened Wrappers
  import opened IssueRecords
  import opened Identity
  import opened Placement

  /** One state file. */
  datatype Stored = Stored(identifier: string, issueId: string, rec: IssueState)

  predicate SortedTexts(s: seq<string>) {
    forall i, j :: 0 <= i < j < |s| ==> s[i] != s[j] && TextLeq(s[i], s[j])
  }

  lemma {:induction false} LeastKey(keys: set<string>) returns (least: string)
    requires keys != {}
    ensures least in keys && forall k | k in keys :: TextLeq(least, k)
  {
    least :| least in keys;
    if keys == {least} {
      TextLeqTotal(least, least);
    } else {
      var rest := LeastKey(keys - {least});
      TextLeqTotal(least, rest);
      TextLeqTotal(least, least);
      if TextLeq(rest, least) {
        least := rest;
      } else {
        forall k | k in keys && k != least
          ensures TextLeq(least, k)
        {
          TextLeqTransitive(least, rest, k);
        }
      }
    }
  }

  /** The file names in order. */
  method SortedKeys(keys: set<string>) returns (sorted: seq<string>)
    ensures SortedTexts(sorted) && forall k :: k in sorted <==> k in keys
  {
    sorted := [];
    var rest := keys;
    while rest != {}
      invariant rest <= keys && SortedTexts(sorted)
      invariant forall k :: k in sorted <==> k in keys && k !in rest
      invariant forall n, k | 0 <= n < |sorted| && k in rest :: TextLeq(sorted[n], k)
      decreases |rest|
    {
      ghost var least := LeastKey(rest);
      var k :| k in rest && forall other | other in rest :: TextLeq(k, other);
      assert forall n | 0 <= n < |sorted| :: sorted[n] in sorted;
      sorted := sorted + [k];
      rest := rest - {k};
    }
  }

  /** What the files hold for an identifier. */
  function Held(files: map<string, Stored>, digest: string -> string, identifier: string): Option<Stored> {
    var k := WorkspaceKey(identifier, digest);
    if k in files then Some(files[k]) else None
  }

  /** Every file is named after the identifier in it. */
  predicate WellNamed(files: map<string, Stored>, digest: string -> string) {
    forall k | k in files :: k == WorkspaceKey(files[k].identifier, digest)
  }

  /** The files read in the order of `paths` are every record once, in the order of the keys. */
  lemma EveryRecordOnce(files: map<string, Stored>, digest: string -> string, paths: seq<string>, states: seq<Stored>)
    requires WellNamed(files, digest) && SortedTexts(paths) && forall k :: k in paths <==> k in files
    requires |states| == |paths| && forall n | 0 <= n < |paths| :: states[n] == files[paths[n]]
    ensures forall n | 0 <= n < |states| :: WorkspaceKey(states[n].identifier, digest) == paths[n]
    ensures forall i | Held(files, digest, i).Some? :: Held(files, digest, i).value in states
    ensures forall n | 0 <= n < |states| :: Held(files, digest, states[n].identifier) == Some(states[n])
  {
    assert forall n | 0 <= n < |paths| :: paths[n] in paths;
    forall i | Held(files, digest, i).Some?
      ensures Held(files, digest, i).value in states
    {
      var n :| 0 <= n < |paths| && paths[n] == WorkspaceKey(i, digest);
      assert states[n] == Held(files, digest, i).value;
    }
  }

  class StateStore {
    const digest: string -> string
    ghost const known: set<string>   // the identifiers in use
    var files: map<string, Stored>

    constructor (digest: string -> string, ghost known: set<string>)
      requires Apart(digest, known)
      ensures Valid() && this.digest == digest && this.known == known && forall i :: At(i) == None
    {
      this.digest, this.known, this.files := digest, known, map[];
    }

    /** No two identifiers in use share a key. */
    static ghost predicate Apart(digest: string -> string, known: set<string>) {
      forall a, b | a in known && b in known && WorkspaceKey(a, digest) == WorkspaceKey(b, digest) :: a == b
    }

    ghost predicate Valid()
      reads this
    {
      && Apart(digest, known)
      && WellNamed(files, digest) && forall k | k in files :: files[k].identifier in known
    }

    /** What the store holds for an identifier. */
    function At(identifier: string): Option<Stored>
      reads this
    {
      Held(files, digest, identifier)
    }

    method Get(identifier: string) returns (found: Option<Stored>)
      requires Valid() && identifier in known
      ensures found == At(identifier)
      ensures found.Some? ==> found.value.identifier == identifier
    {
      var k := WorkspaceKey(identifier, digest);
      found := if k in files then Some(files[k]) else None;
    }

    /** A save is seen under its own identifier and under no other. */
    method Save(state: Stored)
      requires Valid() && state.identifier in known
      modifies this`files
      ensures Valid()
      ensures forall i | i in known :: At(i) == if i == state.identifier then Some(state) else old(At(i))
    {
      files := files[WorkspaceKey(state.identifier, digest) := state];
    }

    /** `for_issue`: the record of the issue, made on first sight; no other record changes. */
    method ForIssue(identifier: string, issueId: string) returns (state: Stored)
      requires Valid() && identifier in known
      modifies this`files
      ensures Valid()
      ensures var before := old(At(identifier));
              state == Stored(identifier, issueId, if before.Some? then before.value.rec else NEW_ISSUE)
      ensures forall i | i in known :: At(i) == if i == identifier then Some(state) else old(At(i))
    {
      var existing := Get(identifier);
      state := match existing
        case None => Stored(identifier, issueId, NEW_ISSUE)
        case Some(found) => found.(issueId := issueId);
      Save(state);
    }

    /** `load_all`: every record once, in the order of the keys. */
    method LoadAll() returns (states: seq<Stored>)
      requires Valid()
      ensures forall i | At(i).Some? :: At(i).value in states
      ensures forall n | 0 <= n < |states| :: At(states[n].identifier) == Some(states[n])
      ensures exists paths :: SortedTexts(paths) && |paths| == |states|
                              && forall n | 0 <= n < |states| :: WorkspaceKey(states[n].identifier, digest) == paths[n]
    {
      var paths := SortedKeys(files.Keys);
      assert forall n | 0 <= n < |paths| :: paths[n] in paths;
      states := [];
      for n := 0 to |paths|
        invariant |states| == n && forall i | 0 <= i < n :: states[i] == files[paths[i]]
      {
        states := states + [files[paths[n]]];
      }
      EveryRecordOnce(files, digest, paths, states);
    }
  }

  /** The keys of identifiers that need sanitizing, as all the tracker makes do, are apart
      exactly when the digest separates those with the same sanitized form. */
  lemma ApartMeans(digest: string -> string, known: set<string>)
    requires forall a | a in known :: Sanitized(a) != a && |digest(a)| == DIGEST_CHARS
    ensures StateStore.Apart(digest, known)
            <==> forall a, b | a in known && b in known && a != b && Sanitized(a) == Sanitized(b) ::
                   digest(a) != digest(b)
  {
    forall a, b | a in known && b in known && a != b
      ensures WorkspaceKey(a, digest) == WorkspaceKey(b, digest)
              <==> Sanitized(a) == Sanitized(b) && digest(a) == digest(b)
    {
      SharedKeyMeans(a, b, digest);
    }
  }
}
