/** oci:// skill references: parsing and printing. */
module OciRef {
  import opened GoStrings
  import opened Types

  datatype OCIRef = OCIRef(registry: string, path: string, tag: string, digest: string)

  const OCI := "oci://"
  const SHA := "@sha256:"

  /** Cut at the first digest marker: what precedes it, and the digest. */
  function CutDigest(s: string): (string, string) {
    var at := Index(s, SHA);
    if at >= 0 then (s[..at], s[at + 1..]) else (s, "")
  }

  /** Cut at the last colon: the name, and the tag. */
  function CutTag(s: string): (string, string) {
    var colon := LastIndexRune(s, ':');
    if colon >= 0 then (s[..colon], s[colon + 1..]) else (s, "")
  }

  function ParseOCIRef(text: string): Result<OCIRef> {
    var s := TrimPrefix(text, OCI);
    if s == "" then Err
    else
      var (head, digest) := CutDigest(s);
      ParseParts(Split(head, '/'), digest)
  }

  /** Registry, path and tag of a reference that was cut at its slashes. */
  function ParseParts(parts: seq<string>, digest: string): Result<OCIRef> {
    if |parts| < 2 then Err
    else
      var n := |parts| - 1;
      var (name, tag) := CutTag(parts[n]);
      Ok(OCIRef(parts[0], Join(parts[1..n] + [name], '/'),
                if tag == "" && digest == "" then "latest" else tag, digest))
  }

  function Print(r: OCIRef): string {
    OCI + r.registry + "/" + r.path +
    if r.digest != "" then "@" + r.digest else if r.tag != "" then ":" + r.tag else ""
  }

  /** The last segment of the path. */
  function LastSegment(path: string): (segment: string)
    ensures '/' !in segment
  {
    var parts := Split(path, '/');
    parts[|parts| - 1]
  }

  /** The references that survive printing and parsing. */
  predicate WellFormed(r: OCIRef) {
    && '/' !in r.registry
    && !Contains(r.registry + "/" + r.path, SHA)
    && (if r.digest != "" then
          r.tag == "" && SHA[1..] <= r.digest && ':' !in LastSegment(r.path)
        else
          && r.tag != "" && '/' !in r.tag && ':' !in r.tag
          && !Contains(r.registry + "/" + r.path + ":" + r.tag, SHA))
  }

  // ---------------------------------------------------------------- the shape of a reference

  /** The path up to and including its last slash. */
  function Folder(path: string): string {
    var parts := Split(path, '/');
    Join(parts[..|parts| - 1] + [""], '/')
  }

  lemma {:induction false} SplitHead(registry: string, rest: string)
    requires '/' !in registry
    ensures Split(registry + "/" + rest, '/') == [registry] + Split(rest, '/')
    decreases |registry|
  {
    var s := registry + "/" + rest;
    if registry == "" {
      assert s[1..] == rest;
    } else {
      assert s[1..] == registry[1..] + "/" + rest;
      SplitHead(registry[1..], rest);
      assert [s[0]] + registry[1..] == registry;
    }
  }

  lemma {:induction false} JoinLast(parts: seq<string>, last: string)
    ensures Join(parts + [last], '/') == Join(parts + [""], '/') + last
    decreases |parts|
  {
    if parts != [] {
      assert (parts + [last])[1..] == parts[1..] + [last];
      assert (parts + [""])[1..] == parts[1..] + [""];
      JoinLast(parts[1..], last);
    }
  }

  lemma FolderAndSegment(path: string)
    ensures path == Folder(path) + LastSegment(path)
  {
    var parts := Split(path, '/');
    var init, last := parts[..|parts| - 1], parts[|parts| - 1];
    assert parts == init + [last];
    JoinLast(init, last);
  }

  lemma SegmentOf(path: string, init: seq<string>, last: string)
    requires Split(path, '/') == init + [last]
    ensures LastSegment(path) == last && Folder(path) == Join(init + [""], '/')
  {
    assert (init + [last])[..|init|] == init;
  }

  /** Text without a slash is appended to the last segment. */
  lemma {:induction false} SplitAppend(path: string, text: string)
    requires '/' !in text
    ensures var parts := Split(path, '/');
            Split(path + text, '/') == parts[..|parts| - 1] + [LastSegment(path) + text]
    decreases |path|
  {
    if path == "" {
      assert path + text == text;
      SplitWord(text);
    } else {
      assert (path + text)[1..] == path[1..] + text;
      SplitAppend(path[1..], text);
      var rest := Split(path[1..], '/');
      var n := |rest| - 1;
      if path[0] == '/' {
        assert [""] + (rest[..n] + [LastSegment(path[1..]) + text]) ==
               ([""] + rest)[..n + 1] + [LastSegment(path) + text];
      } else if n == 0 {
        assert [path[0]] + (rest[0] + text) == ([path[0]] + rest[0]) + text;
      }
    }
  }

  lemma {:induction false} SplitWord(text: string)
    requires '/' !in text
    ensures Split(text, '/') == [text]
  {
    if text != "" {
      SplitWord(text[1..]);
      assert [text[0]] + text[1..] == text;
    }
  }

  /** A reference without digest: registry, then the path with its last segment cut at the last colon. */
  lemma ParseHead(registry: string, rest: string)
    requires '/' !in registry
    ensures var parts := Split(registry + "/" + rest, '/');
            && |parts| >= 2 && parts[0] == registry
            && var (name, tag) := CutTag(parts[|parts| - 1]);
            && (name, tag) == CutTag(LastSegment(rest))
            && Join(parts[1..|parts| - 1] + [name], '/') == Folder(rest) + name
  {
    SplitHead(registry, rest);
    var parts, tail := Split(registry + "/" + rest, '/'), Split(rest, '/');
    assert parts[1..|parts| - 1] == tail[..|tail| - 1];
    JoinLast(tail[..|tail| - 1], CutTag(LastSegment(rest)).0);
  }

  /** The name and the tag of what follows the registry. */
  function NameOf(rest: string): string { Folder(rest) + CutTag(LastSegment(rest)).0 }

  function TagOf(rest: string): string { CutTag(LastSegment(rest)).1 }

  lemma PartsShape(registry: string, rest: string, digest: string)
    requires '/' !in registry
    ensures ParseParts(Split(registry + "/" + rest, '/'), digest) ==
            Ok(OCIRef(registry, NameOf(rest), if TagOf(rest) == "" && digest == "" then "latest" else TagOf(rest), digest))
  {
    ParseHead(registry, rest);
  }

  lemma ParseShape(registry: string, rest: string, s: string, digest: string)
    requires '/' !in registry && s != "" && CutDigest(s) == (registry + "/" + rest, digest)
    ensures ParseOCIRef(OCI + s) ==
            Ok(OCIRef(registry, NameOf(rest), if TagOf(rest) == "" && digest == "" then "latest" else TagOf(rest), digest))
  {
    assert (OCI + s)[|OCI|..] == s;
    PartsShape(registry, rest, digest);
  }

  /** Without a colon in the last segment there is no tag. */
  lemma NoTag(path: string)
    ensures NameOf(path) == path <==> ':' !in LastSegment(path)
    ensures ':' !in LastSegment(path) ==> TagOf(path) == ""
  {
    FolderAndSegment(path);
  }

  /** Cutting `path:tag` gives the path back exactly when the tag holds neither slash nor colon. */
  lemma TagSurvives(path: string, tag: string)
    ensures NameOf(path + ":" + tag) == path && TagOf(path + ":" + tag) == tag <==> '/' !in tag && ':' !in tag
  {
    if '/' !in tag && ':' !in tag {
      var last := LastSegment(path);
      SegmentOfAppended(path, ":" + tag);
      assert path + ":" + tag == path + (":" + tag) && last + ":" + tag == last + (":" + tag);
      assert (last + ":" + tag)[|last| + 1..] == tag && (last + ":" + tag)[..|last|] == last;
      LastIndexRuneIs(last + ":" + tag, ':', |last|);
      FolderAndSegment(path);
    }
  }

  lemma SegmentOfAppended(path: string, text: string)
    requires '/' !in text
    ensures LastSegment(path + text) == LastSegment(path) + text
    ensures Folder(path + text) == Folder(path)
  {
    var parts := Split(path, '/');
    SplitAppend(path, text);
    SegmentOf(path + text, parts[..|parts| - 1], LastSegment(path) + text);
  }

  // ---------------------------------------------------------------- digests

  /** The marker can only start where there is an `@`. */
  lemma MarkerStarts(head: string, digest: string, k: nat)
    requires OccursAt(head + "@" + digest, SHA, k) && k < |head|
    ensures OccursAt(head, SHA, k)
  {
    var s := head + "@" + digest;
    var marker := s[k..k + |SHA|];
    assert forall j :: 1 <= j < |SHA| ==> SHA[j] != '@';
    var j := if |head| - k < |SHA| then |head| - k else 0;
    assert marker[j] == s[k + j];
    assert s[|head|] == '@';
    if k + |SHA| > |head| {
      assert false;
    }
    assert marker == head[k..k + |SHA|];
  }

  lemma MarkerStays(head: string, text: string, k: int)
    requires OccursAt(head, SHA, k)
    ensures OccursAt(head + text, SHA, k)
  {
    assert (head + text)[k..k + |SHA|] == head[k..k + |SHA|];
  }

  lemma IndexIs(s: string, sub: string, k: nat)
    requires OccursAt(s, sub, k) && forall j :: 0 <= j < k ==> !OccursAt(s, sub, j)
    ensures Index(s, sub) == k
  {
  }

  /** The marker occurs at the end of `head` exactly when the digest starts like one. */
  lemma MarkerAt(head: string, digest: string)
    ensures OccursAt(head + "@" + digest, SHA, |head|) <==> SHA[1..] <= digest
  {
    var s := head + "@" + digest;
    assert s[|head|..] == "@" + digest;
    assert SHA == "@" + SHA[1..];
    if SHA[1..] <= digest {
      assert s[|head|..|head| + |SHA|] == "@" + digest[..|SHA| - 1];
    }
    if OccursAt(s, SHA, |head|) {
      assert s[|head| + 1..|head| + |SHA|] == s[|head|..|head| + |SHA|][1..];
      assert s[|head| + 1..] == digest;
      assert digest[..|SHA| - 1] == s[|head| + 1..|head| + |SHA|];
    }
  }

  /** Nothing in `head` or across its end is mistaken for the marker. */
  lemma FirstMarker(head: string, digest: string)
    requires SHA[1..] <= digest && !Contains(head, SHA)
    ensures Index(head + "@" + digest, SHA) == |head|
  {
    var s := head + "@" + digest;
    MarkerAt(head, digest);
    forall j | 0 <= j < |head| ensures !OccursAt(s, SHA, j) {
      if OccursAt(s, SHA, j) { MarkerStarts(head, digest, j); }
    }
    IndexIs(s, SHA, |head|);
  }

  lemma EarlierMarker(head: string, digest: string)
    requires Contains(head, SHA)
    ensures Index(head + "@" + digest, SHA) < |head|
  {
    MarkerStays(head, "@" + digest, Index(head, SHA));
    assert head + ("@" + digest) == head + "@" + digest;
  }

  /** The cut is at the first marker. */
  lemma CutAt(s: string, head: string, digest: string)
    requires s == head + "@" + digest && digest != ""
    ensures CutDigest(s) == (head, digest) <==> Index(s, SHA) == |head|
  {
    assert s[..|head|] == head && s[|head| + 1..] == digest;
  }

  lemma DigestSurvives(head: string, digest: string)
    requires digest != ""
    ensures CutDigest(head + "@" + digest) == (head, digest) <==> SHA[1..] <= digest && !Contains(head, SHA)
  {
    CutAt(head + "@" + digest, head, digest);
    if Contains(head, SHA) {
      EarlierMarker(head, digest);
    } else if SHA[1..] <= digest {
      FirstMarker(head, digest);
    } else {
      MarkerAt(head, digest);
    }
  }

  lemma NoDigest(s: string)
    ensures CutDigest(s).1 == "" <==> !Contains(s, SHA)
    ensures !Contains(s, SHA) ==> CutDigest(s) == (s, "")
  {
  }

  // ---------------------------------------------------------------- round trip

  lemma {:induction false} SplitCount(s: string)
    ensures |Split(s, '/')| >= 2 <==> '/' in s
  {
    if s != "" {
      SplitCount(s[1..]);
      assert s == [s[0]] + s[1..];
    }
  }

  /** A reference is accepted exactly when a slash precedes its digest, if it has one. */
  lemma ParsedIff(text: string)
    ensures ParseOCIRef(text).Ok? <==> '/' in CutDigest(TrimPrefix(text, "oci://")).0
  {
    var s := TrimPrefix(text, OCI);
    SplitCount(CutDigest(s).0);
  }

  /** Whatever else happens, the parsed digest is the one that was cut off. */
  lemma DigestMustMatch(s: string, r: OCIRef)
    requires s != "" && ParseOCIRef(OCI + s) == Ok(r)
    ensures CutDigest(s).1 == r.digest && '/' !in r.registry && (r.digest == "" ==> r.tag != "")
  {
    assert (OCI + s)[|OCI|..] == s;
  }

  lemma CutLeavesHead(head: string, digest: string)
    requires digest != "" && CutDigest(head + "@" + digest).1 == digest
    ensures CutDigest(head + "@" + digest).0 == head
  {
    var s := head + "@" + digest;
    assert Index(s, SHA) == |head|;
    assert s[..|head|] == head;
  }

  lemma RoundTripWithDigest(r: OCIRef)
    requires '/' !in r.registry && r.digest != ""
    ensures ParseOCIRef(Print(r)) == Ok(r) <==> WellFormed(r)
  {
    var head := r.registry + "/" + r.path;
    var s := head + "@" + r.digest;
    assert Print(r) == OCI + s;
    DigestSurvives(head, r.digest);
    NoTag(r.path);
    if ParseOCIRef(OCI + s) == Ok(r) {
      DigestMustMatch(s, r);
      CutLeavesHead(head, r.digest);
      ParseShape(r.registry, r.path, s, r.digest);
    }
    if WellFormed(r) {
      ParseShape(r.registry, r.path, s, r.digest);
    }
  }

  lemma RoundTripWithTag(r: OCIRef)
    requires '/' !in r.registry && r.digest == "" && r.tag != ""
    ensures ParseOCIRef(Print(r)) == Ok(r) <==> WellFormed(r)
  {
    var head := r.registry + "/" + r.path;
    var rest := r.path + ":" + r.tag;
    var s := r.registry + "/" + rest;
    assert s == head + (":" + r.tag) == head + ":" + r.tag;
    assert Print(r) == OCI + s;
    NoDigest(s);
    TagSurvives(r.path, r.tag);
    if ParseOCIRef(OCI + s) == Ok(r) {
      DigestMustMatch(s, r);
      ParseShape(r.registry, rest, s, "");
      UntaggedIsWhole(rest);
      PrefixHasNoMarker(head, ":" + r.tag);
    }
    if WellFormed(r) {
      ParseShape(r.registry, rest, s, "");
    }
  }

  lemma PrefixHasNoMarker(head: string, text: string)
    requires !Contains(head + text, SHA)
    ensures !Contains(head, SHA)
  {
    if Contains(head, SHA) { MarkerStays(head, text, Index(head, SHA)); }
  }

  /** Either the tag is what follows the name and a colon, or the name is everything. */
  lemma UntaggedIsWhole(rest: string)
    ensures NameOf(rest) == rest || rest == NameOf(rest) + ":" + TagOf(rest)
  {
    FolderAndSegment(rest);
    CutTagIsWhole(LastSegment(rest));
    Regroup(Folder(rest), CutTag(LastSegment(rest)).0, TagOf(rest));
  }

  lemma CutTagIsWhole(segment: string)
    ensures var (name, tag) := CutTag(segment); name == segment || segment == name + ":" + tag
  {
  }

  lemma Regroup(a: string, b: string, c: string)
    ensures a + (b + ":" + c) == (a + b) + ":" + c
  {
  }

  /** Printing and parsing gives a reference back exactly when it is well formed. */
  lemma OciRoundTrip(r: OCIRef)
    ensures ParseOCIRef(Print(r)) == Ok(r) <==> WellFormed(r)
  {
    var s := Print(r)[|OCI|..];
    assert Print(r) == OCI + s;
    if '/' !in r.registry && r.digest != "" {
      RoundTripWithDigest(r);
    } else if '/' !in r.registry && r.tag != "" {
      RoundTripWithTag(r);
    } else if ParseOCIRef(OCI + s) == Ok(r) {
      DigestMustMatch(s, r);
    }
  }
}
