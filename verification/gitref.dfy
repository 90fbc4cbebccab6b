/** git:// skill sources: parsing, printing and the cache key. */
module GitRef {
  import opened GoStrings
  import opened Types

  datatype GitSource = GitSource(url: string, path: string, ref: string)

  const HTTPS := "https://"
  const GIT := "git://"

  /** Cut at the last `@`, unless it comes first: what precedes it, and the ref. */
  function SplitRef(s: string): (string, string) {
    var at := LastIndexRune(s, '@');
    if at > 0 then (s[..at], s[at + 1..]) else (s, "")
  }

  /** Cut at the first `#`, unless it comes first: what precedes it, and the path. */
  function SplitPath(s: string): (string, string) {
    var hash := IndexRune(s, '#');
    if hash > 0 then (s[..hash], s[hash + 1..]) else (s, "")
  }

  function ParseGitSource(source: string): Result<GitSource> {
    if !(GIT <= source) then Err
    else
      var (body, ref) := SplitRef(source[|GIT|..]);
      var (host, path) := SplitPath(body);
      if host == "" then Err else Ok(GitSource(HTTPS + host, path, ref))
  }

  /** The printed path and ref. */
  function Tail(g: GitSource): string {
    (if g.path != "" then "#" + g.path else "") + (if g.ref != "" then "@" + g.ref else "")
  }

  function Print(g: GitSource): string { GIT + TrimPrefix(g.url, HTTPS) + Tail(g) }

  function CacheKey(g: GitSource): string { g.url + Tail(g) }

  /** The part of the source after the scheme, before the ref. */
  function Body(host: string, path: string): string { host + if path != "" then "#" + path else "" }

  /**
   * The sources that survive printing and parsing: an https URL with a host, no `@` in the ref, no
   * `#` in the host when there is a path (without one, only a leading one does no harm), and no
   * `@` after the first rune when there is no ref.
   */
  predicate WellFormed(g: GitSource) {
    && HTTPS <= g.url
    && var host := g.url[|HTTPS|..];
    && host != ""
    && '@' !in g.ref
    && (if g.path != "" then '#' !in host else '#' !in host || host[0] == '#')
    && (g.ref == "" ==> '@' !in Body(host, g.path)[1..])
  }

  function WithRef(body: string, ref: string): string { body + if ref != "" then "@" + ref else "" }

  lemma RefSurvives(body: string, ref: string)
    requires body != ""
    ensures SplitRef(WithRef(body, ref)) == (body, ref) <==>
            '@' !in ref && (ref == "" ==> '@' !in body[1..])
  {
    var s := WithRef(body, ref);
    var at := LastIndexRune(s, '@');
    if ref != "" {
      assert s[|body|] == '@' && s[..|body|] == body && s[|body| + 1..] == ref;
      if '@' !in ref {
        LastIndexRuneIs(s, '@', |body|);
      }
    } else {
      assert s == body;
      assert body == [body[0]] + body[1..];
      if at > 0 {
        assert body[1..][at - 1] == '@';
      } else if at == 0 {
        assert body[0 + 1..] == body[1..];
      }
    }
  }

  lemma PathSurvives(host: string, path: string)
    requires host != ""
    ensures SplitPath(Body(host, path)) == (host, path) <==>
            if path != "" then '#' !in host else '#' !in host || host[0] == '#'
  {
    var s := Body(host, path);
    var hash := IndexRune(s, '#');
    if path != "" {
      assert s[|host|] == '#' && s[..|host|] == host && s[|host| + 1..] == path;
      if '#' !in host {
        IndexRuneIs(s, '#', |host|);
      }
    } else {
      assert s == host;
      if '#' in host && host[0] == '#' {
        IndexRuneIs(host, '#', 0);
      }
    }
  }

  /** Cutting twice gives back the parts only if each cut does. */
  lemma CutsAreSeparate(host: string, path: string, ref: string)
    ensures var (body, ref') := SplitRef(WithRef(Body(host, path), ref));
            ref' == ref && SplitPath(body) == (host, path) ==> body == Body(host, path)
  {
    var whole := Body(host, path);
    var s := WithRef(whole, ref);
    var (body, ref') := SplitRef(s);
    if ref' == ref && SplitPath(body) == (host, path) {
      assert |body| == |host| + |path| || |body| == |host| + 1 + |path|;
      assert |body| == |whole|;
      assert s[..|whole|] == whole && s[..|body|] == body;
    }
  }

  /** Printing and parsing gives a source back exactly when it is well formed. */
  lemma GitRoundTrip(g: GitSource)
    ensures ParseGitSource(Print(g)) == Ok(g) <==> WellFormed(g)
  {
    var host := TrimPrefix(g.url, HTTPS);
    var s := WithRef(Body(host, g.path), g.ref);
    assert Print(g)[|GIT|..] == s;
    if HTTPS <= g.url {
      assert g.url == HTTPS + host;
    }
    if host != "" {
      RefSurvives(Body(host, g.path), g.ref);
      PathSurvives(host, g.path);
    }
    CutsAreSeparate(host, g.path, g.ref);
    if ParseGitSource(Print(g)) == Ok(g) {
      var (body, ref) := SplitRef(s);
      var (host', path) := SplitPath(body);
      assert HTTPS <= HTTPS + host';
      assert (HTTPS + host')[|HTTPS|..] == host';
    }
  }

  /** Distinct well-formed sources have distinct cache keys. */
  lemma CacheKeyInjective(g: GitSource, h: GitSource)
    requires WellFormed(g) && WellFormed(h) && CacheKey(g) == CacheKey(h)
    ensures g == h
  {
    GitRoundTrip(g);
    GitRoundTrip(h);
    PrintFromKey(g);
    PrintFromKey(h);
  }

  lemma PrintFromKey(g: GitSource)
    requires HTTPS <= g.url
    ensures Print(g) == GIT + CacheKey(g)[|HTTPS|..]
  {
    assert CacheKey(g)[|HTTPS|..] == g.url[|HTTPS|..] + Tail(g);
  }

  // ---------------------------------------------------------------- the keys of parsed sources

  function Host(g: GitSource): string { TrimPrefix(g.url, HTTPS) }

  /** What a parsed source is like. */
  predicate Parsed(g: GitSource) {
    && g.url == HTTPS + Host(g) && Host(g) != "" && '@' !in g.ref
    && SplitPath(Body(Host(g), g.path)) == (Host(g), g.path)
  }

  lemma ParsedShape(s: string, g: GitSource)
    requires ParseGitSource(s) == Ok(g)
    ensures Parsed(g)
  {
    var (body, ref) := SplitRef(s[|GIT|..]);
    var (host, path) := SplitPath(body);
    assert HTTPS <= g.url && g.url[|HTTPS|..] == host;
    CutTwice(body);
  }

  lemma CutTwice(body: string)
    ensures var (host, path) := SplitPath(body); host != "" ==> SplitPath(Body(host, path)) == (host, path)
  {
    var (host, path) := SplitPath(body);
    if host != "" { PathSurvives(host, path); }
  }

  /** Every text after git:// is a source, if there is any. */
  lemma ParsedIff(s: string)
    ensures ParseGitSource(s).Ok? <==> "git://" <= s && |s| > 6
  {
    if GIT <= s && |s| > 6 {
      var body := s[|GIT|..];
      var (rest, ref) := SplitRef(body);
      assert rest != "";
    }
  }

  /** Of the parsed sources, exactly those are well formed that have a ref or no `@` that could start one. */
  lemma ParsedWellFormedIff(s: string, g: GitSource)
    requires ParseGitSource(s) == Ok(g)
    ensures WellFormed(g) <==> g.ref != "" || '@' !in Body(Host(g), g.path)[1..]
  {
    ParsedShape(s, g);
    PathSurvives(Host(g), g.path);
  }

  /** Parsed sources with the same key are the same exactly when both or neither have a ref. */
  lemma ParsedKeysAgree(s: string, g: GitSource, s': string, h: GitSource)
    requires ParseGitSource(s) == Ok(g) && ParseGitSource(s') == Ok(h) && CacheKey(g) == CacheKey(h)
    ensures g == h <==> (g.ref == "" <==> h.ref == "")
  {
    ParsedShape(s, g);
    ParsedShape(s', h);
    if g.ref == "" <==> h.ref == "" { SameKeySameSource(g, h); }
  }

  lemma SameKeySameSource(g: GitSource, h: GitSource)
    requires Parsed(g) && Parsed(h) && CacheKey(g) == CacheKey(h) && (g.ref == "" <==> h.ref == "")
    ensures g == h
  {
    KeyIsBody(g);
    KeyIsBody(h);
    SameBody(Body(Host(g), g.path), g.ref, Body(Host(h), h.path), h.ref);
  }

  lemma SameBody(b: string, ref: string, b': string, ref': string)
    requires b != "" && b' != "" && '@' !in ref && '@' !in ref' && (ref == "" <==> ref' == "")
    requires WithRef(b, ref) == WithRef(b', ref')
    ensures b == b' && ref == ref'
  {
    if ref != "" {
      RefSurvives(b, ref);
      RefSurvives(b', ref');
    } else {
      assert b + "" == b && b' + "" == b';
    }
  }

  lemma KeyIsBody(g: GitSource)
    requires g.url == HTTPS + Host(g)
    ensures CacheKey(g)[|HTTPS|..] == WithRef(Body(Host(g), g.path), g.ref)
  {
    assert CacheKey(g) == HTTPS + WithRef(Body(Host(g), g.path), g.ref);
  }

  lemma CutNothing(body: string)
    requires body != "" && '#' !in body
    ensures SplitRef(body + "@") == (body, "") && SplitPath(body) == (body, "")
  {
    var s := body + "@";
    LastIndexRuneIs(s, '@', |body|);
    assert s[..|body|] == body && s[|body| + 1..] == "";
  }

  lemma ParseBody(body: string)
    ensures var (rest, ref) := SplitRef(body);
            var (host, path) := SplitPath(rest);
            ParseGitSource(GIT + body) == if host == "" then Err else Ok(GitSource(HTTPS + host, path, ref))
  {
    assert (GIT + body)[|GIT|..] == body;
  }

  lemma RefAndRest(body: string)
    requires '#' !in body && SplitRef(body).1 != ""
    ensures var (rest, ref) := SplitRef(body);
            rest + "@" + ref == body && SplitPath(rest) == (rest, "")
  {
    var at := LastIndexRune(body, '@');
    assert body == body[..at] + "@" + body[at + 1..];
    assert '#' !in body[..at];
  }

  lemma KeyOf(host: string, ref: string, body: string)
    requires ref != "" && host + "@" + ref == body
    ensures CacheKey(GitSource(HTTPS + host, "", ref)) == CacheKey(GitSource(HTTPS + body, "", ""))
  {
    assert CacheKey(GitSource(HTTPS + host, "", ref)) == HTTPS + (host + "@" + ref);
    assert CacheKey(GitSource(HTTPS + body, "", "")) == HTTPS + body;
  }

  /** Every source with a ref and no path shares its key with the one that has another `@` at its end. */
  lemma TrailingAtCollides(body: string, g: GitSource) returns (h: GitSource)
    requires ParseGitSource(GIT + body) == Ok(g) && g.ref != "" && '#' !in body
    ensures ParseGitSource(GIT + (body + "@")) == Ok(h) && h != g && CacheKey(h) == CacheKey(g)
  {
    ParseBody(body);
    RefAndRest(body);
    CutNothing(body);
    ParseBody(body + "@");
    h := GitSource(HTTPS + body, "", "");
    KeyOf(SplitRef(body).0, SplitRef(body).1, body);
  }

  /** For instance. */
  lemma CacheKeyCollides() returns (g: GitSource, h: GitSource)
    ensures ParseGitSource("git://h@r") == Ok(g) && ParseGitSource("git://h@r@") == Ok(h)
    ensures g != h && CacheKey(g) == CacheKey(h)
  {
    var body := "h@r";
    assert "git://h@r" == GIT + body && "git://h@r@" == GIT + (body + "@");
    LastIndexRuneIs(body, '@', 1);
    assert body[..1] == "h" && body[2..] == "r";
    ParseBody(body);
    g := GitSource(HTTPS + "h", "", "r");
    h := TrailingAtCollides(body, g);
  }
}
