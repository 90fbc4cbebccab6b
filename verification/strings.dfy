/** The parts of Go's `strings` package the operator relies on, over sequences of runes. */
module GoStrings {

  /** `sub` occurs in `s` at position `k`. */
  predicate OccursAt(s: string, sub: string, k: int) {
    0 <= k && k + |sub| <= |s| && s[k..k + |sub|] == sub
  }

  predicate LeftmostAt(s: string, sub: string, k: int) {
    OccursAt(s, sub, k) && forall j :: 0 <= j < k ==> !OccursAt(s, sub, j)
  }

  lemma {:induction false} LeftmostExists(s: string, sub: string, k: nat)
    requires OccursAt(s, sub, k)
    ensures exists j :: 0 <= j <= |s| && LeftmostAt(s, sub, j)
  {
    if !LeftmostAt(s, sub, k) {
      var j :| 0 <= j < k && OccursAt(s, sub, j);
      LeftmostExists(s, sub, j);
    }
  }

  /** strings.Index: the leftmost occurrence, or -1. */
  function Index(s: string, sub: string): (r: int)
    ensures r == -1 || OccursAt(s, sub, r)
    ensures forall k :: 0 <= k && (r == -1 || k < r) ==> !OccursAt(s, sub, k)
  {
    if exists k :: 0 <= k <= |s| && OccursAt(s, sub, k) then
      assert exists k :: 0 <= k <= |s| && LeftmostAt(s, sub, k) by {
        var k :| 0 <= k <= |s| && OccursAt(s, sub, k);
        LeftmostExists(s, sub, k);
      }
      var k :| 0 <= k <= |s| && LeftmostAt(s, sub, k);
      k
    else -1
  }

  predicate Contains(s: string, sub: string) {
    Index(s, sub) >= 0
  }

  /** strings.Index for a one-rune needle. */
  function IndexRune(s: string, c: char): (r: int)
    ensures r == -1 <==> c !in s
    ensures r != -1 ==> 0 <= r < |s| && s[r] == c && c !in s[..r]
  {
    if s == "" then -1
    else if s[0] == c then 0
    else
      var r := IndexRune(s[1..], c);
      assert s == [s[0]] + s[1..];
      if r == -1 then -1 else
        assert s[..r + 1] == [s[0]] + s[1..][..r];
        r + 1
  }

  /** strings.LastIndex for a one-rune needle. */
  function LastIndexRune(s: string, c: char): (r: int)
    ensures r == -1 <==> c !in s
    ensures r != -1 ==> 0 <= r < |s| && s[r] == c && c !in s[r + 1..]
  {
    if s == "" then -1
    else if s[|s| - 1] == c then |s| - 1
    else
      var r := LastIndexRune(s[..|s| - 1], c);
      assert s == s[..|s| - 1] + [s[|s| - 1]];
      if r == -1 then -1 else
        assert s[r + 1..] == s[..|s| - 1][r + 1..] + [s[|s| - 1]];
        r
  }

  lemma IndexRuneIs(s: string, c: char, r: nat)
    requires r < |s| && s[r] == c && c !in s[..r]
    ensures IndexRune(s, c) == r
  {
    var i := IndexRune(s, c);
    assert s[r] in s;
    assert forall j :: 0 <= j < r ==> s[j] == s[..r][j] != c;
    assert forall j :: 0 <= j < i ==> s[j] == s[..i][j] != c;
  }

  lemma LastIndexRuneIs(s: string, c: char, r: nat)
    requires r < |s| && s[r] == c && c !in s[r + 1..]
    ensures LastIndexRune(s, c) == r
  {
    var i := LastIndexRune(s, c);
    assert s[r] in s;
    assert forall j :: r < j < |s| ==> s[j] == s[r + 1..][j - r - 1] != c;
    assert forall j :: i < j < |s| ==> s[j] == s[i + 1..][j - i - 1] != c;
  }

  function TrimPrefix(s: string, prefix: string): string {
    if prefix <= s then s[|prefix|..] else s
  }

  /** strings.Split for a one-rune separator. */
  function Split(s: string, sep: char): (parts: seq<string>)
    ensures |parts| >= 1
    ensures forall i :: 0 <= i < |parts| ==> sep !in parts[i]
    ensures Join(parts, sep) == s
  {
    if s == "" then [""]
    else
      var rest := Split(s[1..], sep);
      if s[0] == sep then
        assert ([""] + rest)[1..] == rest;
        [""] + rest
      else
        assert ([[s[0]] + rest[0]] + rest[1..])[1..] == rest[1..];
        [[s[0]] + rest[0]] + rest[1..]
  }

  /** strings.Join for a one-rune separator. */
  function Join(parts: seq<string>, sep: char): string {
    if parts == [] then ""
    else if |parts| == 1 then parts[0]
    else parts[0] + [sep] + Join(parts[1..], sep)
  }

  function LowerRune(c: char): char {
    if 'A' <= c <= 'Z' then c - 'A' + 'a' else c
  }

  /** strings.ToLower, on ASCII letters. */
  function ToLower(s: string): (r: string)
    ensures |r| == |s|
    ensures forall i :: 0 <= i < |s| ==> r[i] == LowerRune(s[i])
  {
    if s == "" then "" else [LowerRune(s[0])] + ToLower(s[1..])
  }

  lemma ToLowerConcat(a: string, b: string)
    ensures ToLower(a + b) == ToLower(a) + ToLower(b)
  {
  }

  /** unicode.IsSpace. */
  predicate IsSpace(c: char) {
    || '\t' <= c <= '\r' || c == ' ' || c == '\U{85}' || c == '\U{a0}' || c == '\U{1680}'
    || '\U{2000}' <= c <= '\U{200a}'
    || c == '\U{2028}' || c == '\U{2029}' || c == '\U{202f}' || c == '\U{205f}' || c == '\U{3000}'
  }

  /** The length of the longest space-free prefix. */
  function WordLength(s: string): (n: nat)
    ensures n <= |s|
    ensures forall i :: 0 <= i < n ==> !IsSpace(s[i])
    ensures n < |s| ==> IsSpace(s[n])
  {
    if s == "" || IsSpace(s[0]) then 0 else 1 + WordLength(s[1..])
  }

  function TrimLeft(s: string): (r: string)
    ensures |r| <= |s| && (r != "" ==> !IsSpace(r[0]))
  {
    if s != "" && IsSpace(s[0]) then TrimLeft(s[1..]) else s
  }

  function TrimRight(s: string): (r: string)
    ensures r <= s && (r != "" ==> !IsSpace(r[|r| - 1]))
  {
    if s != "" && IsSpace(s[|s| - 1]) then TrimRight(s[..|s| - 1]) else s
  }

  function TrimSpace(s: string): string {
    TrimRight(TrimLeft(s))
  }

  /** strings.Fields: the maximal space-free runs, in order. */
  function Fields(s: string): (parts: seq<string>)
    ensures forall i :: 0 <= i < |parts| ==> IsWord(parts[i])
    decreases |s|
  {
    var t := TrimLeft(s);
    if t == "" then []
    else
      var n := WordLength(t);
      [t[..n]] + Fields(t[n..])
  }

  /** A non-empty space-free string. */
  predicate IsWord(s: string) {
    s != "" && forall i :: 0 <= i < |s| ==> !IsSpace(s[i])
  }
}
