/**
 * The two glob matchers of the operator: the guardrail engine's greedy matcher and the
 * assembler's looser one, compared with what a glob pattern means.
 */
module Glob {
  import opened GoStrings

  // ---------------------------------------------------------------- meaning

  /** What a pattern means: each `*` absorbs some substring, everything else is literal. */
  ghost predicate Matches(pattern: string, text: string)
    decreases |pattern|
  {
    if pattern == "" then text == ""
    else if pattern[0] == '*' then
      exists k :: 0 <= k <= |text| && Matches(pattern[1..], text[k..])
    else
      text != "" && text[0] == pattern[0] && Matches(pattern[1..], text[1..])
  }

  /** `text` is a gap, then parts[0], then a gap, then parts[1], ... and nothing after the last part. */
  ghost predicate Spread(parts: seq<string>, text: string)
    decreases |parts|
  {
    if parts == [] then text == ""
    else exists k :: OccursAt(text, parts[0], k) && Spread(parts[1..], text[k + |parts[0]|..])
  }

  // ---------------------------------------------------------------- matchers

  datatype Rest = Stuck | Rest(text: string)

  /** Consume the parts left to right, each at its leftmost occurrence. */
  function Greedy(parts: seq<string>, text: string): Rest
    decreases |parts|
  {
    if parts == [] then Rest(text)
    else
      var k := Index(text, parts[0]);
      if k < 0 then Stuck else Greedy(parts[1..], text[k + |parts[0]|..])
  }

  /** What the engine's matcher answers. */
  predicate EngineMatch(pattern: string, text: string) {
    var parts := Split(pattern, '*');
    if |parts| == 1 then pattern == text
    else
      parts[0] <= text &&
      var rest := Greedy(parts[1..], text[|parts[0]|..]);
      rest.Rest? && (parts[|parts| - 1] != "" ==> rest.text == "")
  }

  /** What the assembler's matcher answers. */
  predicate AssemblerMatch(pattern: string, text: string) {
    Greedy(Split(pattern, '*'), text).Rest?
  }

  /** The engine's matchGlob. */
  method MatchGlob(pattern: string, text: string) returns (ok: bool)
    ensures ok == EngineMatch(pattern, text)
  {
    var parts := Split(pattern, '*');
    if |parts| == 1 {
      return pattern == text;
    }
    if parts[0] != "" && !(parts[0] <= text) {
      return false;
    }
    var remaining := text;
    if parts[0] != "" {
      remaining := remaining[|parts[0]|..];
    }
    var i := 1;
    while i < |parts|
      invariant 1 <= i <= |parts|
      invariant Greedy(parts[1..], text[|parts[0]|..]) == Greedy(parts[i..], remaining)
    {
      assert parts[i..][1..] == parts[i + 1..];
      if parts[i] == "" {
        EmptyPartIsSkipped(parts[i..], remaining);
        i := i + 1;
        continue;
      }
      var idx := Index(remaining, parts[i]);
      if idx < 0 {
        return false;
      }
      remaining := remaining[idx + |parts[i]|..];
      i := i + 1;
    }
    if parts[|parts| - 1] != "" {
      return |remaining| == 0;
    }
    return true;
  }

  /** The assembler's matchGlob. */
  method MatchGlobLoose(pattern: string, text: string) returns (ok: bool)
    ensures ok == AssemblerMatch(pattern, text)
  {
    var parts := Split(pattern, '*');
    var remaining := text;
    for i := 0 to |parts|
      invariant Greedy(parts, text) == Greedy(parts[i..], remaining)
    {
      assert parts[i..][1..] == parts[i + 1..];
      if parts[i] == "" {
        EmptyPartIsSkipped(parts[i..], remaining);
        continue;
      }
      var idx := Index(remaining, parts[i]);
      if idx < 0 {
        return false;
      }
      remaining := remaining[idx + |parts[i]|..];
    }
    return true;
  }

  lemma EmptyPartIsSkipped(parts: seq<string>, text: string)
    requires parts != [] && parts[0] == ""
    ensures Greedy(parts, text) == Greedy(parts[1..], text)
  {
    assert OccursAt(text, "", 0);
  }

  // ---------------------------------------------------------------- meaning, part by part

  /** `parts[0]` at position `k`, the rest spread after it. */
  ghost predicate SpreadAt(parts: seq<string>, text: string, k: int)
    requires parts != []
  {
    OccursAt(text, parts[0], k) && Spread(parts[1..], text[k + |parts[0]|..])
  }

  lemma {:induction false} MatchesByParts(pattern: string, text: string)
    ensures var parts := Split(pattern, '*'); Matches(pattern, text) <==> SpreadAt(parts, text, 0)
    decreases |pattern|, 1
  {
    if pattern != "" {
      if pattern[0] == '*' {
        StarByParts(pattern, text);
      } else {
        LiteralByParts(pattern, text);
      }
    }
  }

  lemma ShiftedSpread(parts: seq<string>, text: string, k: nat)
    requires parts != [] && k <= |text|
    ensures SpreadAt(parts, text[k..], 0) <==> SpreadAt(parts, text, k)
  {
    if parts[0] <= text[k..] {
      assert text[k..][|parts[0]|..] == text[k + |parts[0]|..];
    }
  }

  lemma {:induction false} StarByParts(pattern: string, text: string)
    requires pattern != "" && pattern[0] == '*'
    ensures Matches(pattern, text) <==> SpreadAt(Split(pattern, '*'), text, 0)
    decreases |pattern|, 0
  {
    var rest := Split(pattern[1..], '*');
    assert Split(pattern, '*')[1..] == rest;
    assert text[0..] == text;
    forall k | 0 <= k <= |text|
      ensures Matches(pattern[1..], text[k..]) <==> SpreadAt(rest, text, k)
    {
      MatchesByParts(pattern[1..], text[k..]);
      ShiftedSpread(rest, text, k);
    }
    if Spread(rest, text) {
      var k :| OccursAt(text, rest[0], k) && Spread(rest[1..], text[k + |rest[0]|..]);
      assert SpreadAt(rest, text, k);
      assert Matches(pattern[1..], text[k..]);
    }
  }

  lemma {:induction false} LiteralByParts(pattern: string, text: string)
    requires pattern != "" && pattern[0] != '*'
    ensures Matches(pattern, text) <==> SpreadAt(Split(pattern, '*'), text, 0)
    decreases |pattern|, 0
  {
    var rest := Split(pattern[1..], '*');
    var parts := Split(pattern, '*');
    assert parts[1..] == rest[1..];
    if text != "" && text[0] == pattern[0] {
      MatchesByParts(pattern[1..], text[1..]);
      assert text == [text[0]] + text[1..];
      if parts[0] <= text || rest[0] <= text[1..] {
        assert text[1..][|rest[0]|..] == text[|parts[0]|..];
      }
    }
  }

  /** The first gap can always be longer. */
  lemma SpreadAbsorbs(parts: seq<string>, text: string, j: nat)
    requires parts != [] && j <= |text| && Spread(parts, text[j..])
    ensures Spread(parts, text)
  {
    var k :| OccursAt(text[j..], parts[0], k) && Spread(parts[1..], text[j..][k + |parts[0]|..]);
    assert text[j..][k + |parts[0]|..] == text[j + k + |parts[0]|..];
    assert OccursAt(text, parts[0], j + k);
  }

  lemma EarlierLeavesMore(parts: seq<string>, text: string, early: nat, late: nat)
    requires parts != [] && early <= late <= |text| && Spread(parts, text[late..])
    ensures Spread(parts, text[early..])
  {
    assert text[early..][late - early..] == text[late..];
    SpreadAbsorbs(parts, text[early..], late - early);
  }

  /** A greedy run that may stop where it stopped is a real decomposition. */
  lemma {:induction false} GreedyIsSound(parts: seq<string>, text: string)
    requires parts != [] && Greedy(parts, text).Rest?
    requires parts[|parts| - 1] == "" || Greedy(parts, text).text == ""
    ensures Spread(parts, text)
    decreases |parts|
  {
    var k := Index(text, parts[0]);
    if |parts| == 1 {
      if parts[0] == "" {
        assert OccursAt(text, "", |text|);
        assert Spread(parts[1..], text[|text|..]);
      } else {
        assert OccursAt(text, parts[0], k) && Spread(parts[1..], text[k + |parts[0]|..]);
      }
    } else {
      GreedyIsSound(parts[1..], text[k + |parts[0]|..]);
    }
  }

  /** Taking each part as far left as possible never loses a match that may end anywhere. */
  lemma {:induction false} GreedyIsComplete(parts: seq<string>, text: string)
    requires parts != [] && Spread(parts, text)
    ensures Greedy(parts, text).Rest?
    decreases |parts|
  {
    var k :| OccursAt(text, parts[0], k) && Spread(parts[1..], text[k + |parts[0]|..]);
    var g := Index(text, parts[0]);
    assert 0 <= g <= k;
    if |parts| == 1 {
      assert parts[1..] == [];
    } else {
      EarlierLeavesMore(parts[1..], text, g + |parts[0]|, k + |parts[0]|);
      GreedyIsComplete(parts[1..], text[g + |parts[0]|..]);
    }
  }

  // ---------------------------------------------------------------- theorems

  /** Whatever the engine's matcher accepts, the pattern really matches. */
  lemma EngineMatchIsSound(pattern: string, text: string)
    requires EngineMatch(pattern, text)
    ensures Matches(pattern, text)
  {
    var parts := Split(pattern, '*');
    MatchesByParts(pattern, text);
    if |parts| > 1 {
      GreedyIsSound(parts[1..], text[|parts[0]|..]);
    } else {
      assert parts[0] == pattern;
    }
  }

  lemma {:induction false} OnePart(pattern: string)
    ensures |Split(pattern, '*')| == 1 <==> '*' !in pattern
    decreases |pattern|
  {
    if pattern != "" {
      OnePart(pattern[1..]);
      assert pattern == [pattern[0]] + pattern[1..];
    }
  }

  lemma {:induction false} LastPart(pattern: string)
    ensures var parts := Split(pattern, '*');
            parts[|parts| - 1] == "" <==> pattern == "" || pattern[|pattern| - 1] == '*'
    decreases |pattern|
  {
    if |pattern| == 1 {
      assert pattern[1..] == "";
    } else if pattern != "" {
      LastPart(pattern[1..]);
    }
  }

  /** The patterns without `*`, and those that end in one. */
  predicate OpenEnded(pattern: string) {
    '*' !in pattern || pattern[|pattern| - 1] == '*'
  }

  lemma EngineMatchIsComplete(pattern: string, text: string)
    requires OpenEnded(pattern) && Matches(pattern, text)
    ensures EngineMatch(pattern, text)
  {
    var parts := Split(pattern, '*');
    MatchesByParts(pattern, text);
    OnePart(pattern);
    LastPart(pattern);
    if |parts| == 1 {
      assert parts[0] == pattern;
      assert text == parts[0] + text[|parts[0]|..];
    } else {
      GreedyIsComplete(parts[1..], text[|parts[0]|..]);
    }
  }

  function Concat(parts: seq<string>): string {
    if parts == [] then "" else parts[0] + Concat(parts[1..])
  }

  /** On the parts written one after the other, the greedy matcher consumes exactly the parts. */
  lemma {:induction false} GreedyOnConcat(parts: seq<string>, tail: string)
    ensures Greedy(parts, Concat(parts) + tail) == Rest(tail)
    decreases |parts|
  {
    if parts != [] {
      var text := Concat(parts) + tail;
      assert text == parts[0] + (Concat(parts[1..]) + tail);
      assert OccursAt(text, parts[0], 0);
      assert text[|parts[0]|..] == Concat(parts[1..]) + tail;
      GreedyOnConcat(parts[1..], tail);
    }
  }

  /** ... while the last gap may absorb one more copy of the last part. */
  lemma {:induction false} SpreadOnConcat(parts: seq<string>)
    requires parts != []
    ensures Spread(parts, Concat(parts) + parts[|parts| - 1])
    decreases |parts|
  {
    var last := parts[|parts| - 1];
    var text := Concat(parts) + last;
    if |parts| == 1 {
      assert Concat(parts[1..]) == "";
      assert text == last + last;
      assert OccursAt(text, last, |last|);
      assert Spread(parts[1..], text[|last| + |last|..]);
    } else {
      SpreadOnConcat(parts[1..]);
      assert text == parts[0] + (Concat(parts[1..]) + last);
      assert OccursAt(text, parts[0], 0);
      assert text[|parts[0]|..] == Concat(parts[1..]) + last;
    }
  }

  /** A text that the pattern matches and the engine rejects, for each pattern that ends in a literal. */
  function MissedText(pattern: string): string {
    var parts := Split(pattern, '*');
    Concat(parts) + parts[|parts| - 1]
  }

  lemma MissedTextShape(first: string, rest: string, tail: string)
    ensures var text := first + rest + tail;
            OccursAt(text, first, 0) && text[|first|..] == rest + tail
  {
    assert first + rest + tail == first + (rest + tail);
  }

  lemma ClosedPatternMisses(pattern: string)
    requires !OpenEnded(pattern)
    ensures Matches(pattern, MissedText(pattern)) && !EngineMatch(pattern, MissedText(pattern))
  {
    var parts := Split(pattern, '*');
    OnePart(pattern);
    LastPart(pattern);
    MissedTextShape(parts[0], Concat(parts[1..]), parts[|parts| - 1]);
    assert parts[1..][|parts[1..]| - 1] == parts[|parts| - 1];
    GreedyOnConcat(parts[1..], parts[|parts| - 1]);
    SpreadOnConcat(parts[1..]);
    MatchesByParts(pattern, MissedText(pattern));
  }

  // ---------------------------------------------------------------- patterns that end in a literal

  /** The greedy run consumes a prefix over which the parts are spread ... */
  lemma {:induction false} GreedyConsumes(parts: seq<string>, text: string)
    requires parts != [] && Greedy(parts, text).Rest?
    ensures var n := |text| - |Greedy(parts, text).text|; 0 <= n <= |text| && Spread(parts, text[..n])
    decreases |parts|
  {
    var k := Index(text, parts[0]);
    var after := text[k + |parts[0]|..];
    if |parts| == 1 {
      assert parts[1..] == [];
      ConsumedOne(text, parts[0], k);
      assert SpreadAt(parts, text[..k + |parts[0]|], k);
    } else {
      GreedyConsumes(parts[1..], after);
      var m := |after| - |Greedy(parts[1..], after).text|;
      var n := k + |parts[0]| + m;
      ConsumedMore(text, parts[0], k, m);
      assert SpreadAt(parts, text[..n], k);
    }
  }

  lemma ConsumedOne(text: string, part: string, k: nat)
    requires OccursAt(text, part, k)
    ensures OccursAt(text[..k + |part|], part, k) && text[..k + |part|][k + |part|..] == ""
  {
    assert text[..k + |part|][k..k + |part|] == text[k..k + |part|];
  }

  lemma ConsumedMore(text: string, part: string, k: nat, m: nat)
    requires OccursAt(text, part, k) && k + |part| + m <= |text|
    ensures OccursAt(text[..k + |part| + m], part, k)
    ensures text[..k + |part| + m][k + |part|..] == text[k + |part|..][..m]
  {
    assert text[..k + |part| + m][k..k + |part|] == text[k..k + |part|];
  }

  /** ... and the shortest one. */
  lemma {:induction false} GreedyIsShortest(parts: seq<string>, text: string, n: nat)
    requires parts != [] && n <= |text| && Spread(parts, text[..n])
    ensures Greedy(parts, text).Rest? && |text| - |Greedy(parts, text).text| <= n
    decreases |parts|
  {
    var prefix := text[..n];
    var k :| OccursAt(prefix, parts[0], k) && Spread(parts[1..], prefix[k + |parts[0]|..]);
    OccursBefore(text, parts[0], n, k);
    var g := Index(text, parts[0]);
    assert 0 <= g <= k;
    if |parts| == 1 {
      assert parts[1..] == [];
      assert |prefix[k + |parts[0]|..]| == 0;
    } else {
      var after, m := text[g + |parts[0]|..], n - (g + |parts[0]|);
      assert prefix[g + |parts[0]|..] == after[..m];
      EarlierLeavesMore(parts[1..], prefix, g + |parts[0]|, k + |parts[0]|);
      GreedyIsShortest(parts[1..], after, m);
    }
  }

  lemma OccursBefore(text: string, part: string, n: nat, k: int)
    requires n <= |text| && OccursAt(text[..n], part, k)
    ensures OccursAt(text, part, k)
  {
    assert text[..n][k..k + |part|] == text[k..k + |part|];
  }

  /** The rest of a pattern that ends in a literal consumes the whole text exactly when no shorter prefix will do. */
  lemma RestIsShortest(parts: seq<string>, text: string)
    requires parts != []
    ensures Greedy(parts, text) == Rest("") <==>
            Spread(parts, text) && forall n :: 0 <= n < |text| ==> !Spread(parts, text[..n])
  {
    assert text[..|text|] == text;
    if Greedy(parts, text).Rest? {
      GreedyConsumes(parts, text);
    }
    forall n | 0 <= n <= |text| && Spread(parts, text[..n])
      ensures Greedy(parts, text).Rest? && |text| - |Greedy(parts, text).text| <= n
    {
      GreedyIsShortest(parts, text, n);
    }
  }

  lemma PrefixByParts(pattern: string, text: string, n: nat)
    requires n <= |text| && Split(pattern, '*')[0] <= text
    ensures var parts := Split(pattern, '*');
            Matches(pattern, text[..n]) <==> n >= |parts[0]| && Spread(parts[1..], text[|parts[0]|..][..n - |parts[0]|])
  {
    var parts := Split(pattern, '*');
    MatchesByParts(pattern, text[..n]);
    if n >= |parts[0]| {
      assert text[..n][|parts[0]|..] == text[|parts[0]|..][..n - |parts[0]|];
      assert text[..n][..|parts[0]|] == text[..|parts[0]|];
    }
  }

  /** For a pattern with a star that ends in a literal the engine accepts exactly the texts with no shorter match. */
  lemma ClosedPatternAccepts(pattern: string, text: string)
    requires !OpenEnded(pattern)
    ensures EngineMatch(pattern, text) <==>
            Matches(pattern, text) && forall n :: 0 <= n < |text| ==> !Matches(pattern, text[..n])
  {
    var parts := Split(pattern, '*');
    OnePart(pattern);
    LastPart(pattern);
    MatchesByParts(pattern, text);
    if parts[0] <= text {
      var rest := text[|parts[0]|..];
      RestIsShortest(parts[1..], rest);
      forall n | 0 <= n < |text|
        ensures Matches(pattern, text[..n]) <==> n >= |parts[0]| && Spread(parts[1..], rest[..n - |parts[0]|])
      {
        PrefixByParts(pattern, text, n);
      }
      forall m | 0 <= m < |rest| ensures Spread(parts[1..], rest[..m]) <==> Matches(pattern, text[..|parts[0]| + m]) {
        PrefixByParts(pattern, text, |parts[0]| + m);
      }
    }
  }

  /** The engine's matcher decides the pattern exactly for the open-ended patterns and no others. */
  lemma EngineMatchExactIff(pattern: string)
    ensures (forall text :: EngineMatch(pattern, text) <==> Matches(pattern, text)) <==> OpenEnded(pattern)
  {
    if OpenEnded(pattern) {
      forall text ensures EngineMatch(pattern, text) <==> Matches(pattern, text) {
        if EngineMatch(pattern, text) { EngineMatchIsSound(pattern, text); }
        if Matches(pattern, text) { EngineMatchIsComplete(pattern, text); }
      }
    } else {
      ClosedPatternMisses(pattern);
    }
  }

  lemma {:induction false} SplitSnocStar(pattern: string)
    ensures Split(pattern + "*", '*') == Split(pattern, '*') + [""]
    decreases |pattern|
  {
    if pattern == "" {
      assert pattern + "*" == "*";
      assert Split("*", '*') == [""] + Split("*"[1..], '*');
    } else {
      assert (pattern + "*")[1..] == pattern[1..] + "*";
      SplitSnocStar(pattern[1..]);
    }
  }

  lemma GreedyCons(head: string, tail: seq<string>, text: string)
    ensures Greedy([head] + tail, text) ==
            var k := Index(text, head);
            if k < 0 then Stuck else Greedy(tail, text[k + |head|..])
  {
    assert ([head] + tail)[1..] == tail;
  }

  lemma {:induction false} GreedySnocEmpty(parts: seq<string>, text: string)
    ensures Greedy(parts + [""], text) == Greedy(parts, text)
    decreases |parts|
  {
    if parts == [] {
      EmptyPartIsSkipped([""], text);
      assert parts + [""] == [""];
    } else {
      var head, tail := parts[0], parts[1..];
      assert parts == [head] + tail && parts + [""] == [head] + (tail + [""]);
      GreedyCons(head, tail, text);
      GreedyCons(head, tail + [""], text);
      var k := Index(text, head);
      if k >= 0 {
        GreedySnocEmpty(tail, text[k + |head|..]);
      }
    }
  }

  /** The assembler's matcher answers as if the pattern were surrounded by stars. */
  lemma AssemblerMatchMeaning(pattern: string, text: string)
    ensures AssemblerMatch(pattern, text) <==> Matches("*" + pattern + "*", text)
  {
    var parts := Split(pattern, '*');
    var open := "*" + pattern + "*";
    assert open[1..] == pattern + "*";
    SplitSnocStar(pattern);
    var all := parts + [""];
    assert Split(open, '*') == [""] + all;
    assert Split(open, '*')[1..] == all;
    MatchesByParts(open, text);
    assert text[0..] == text;
    GreedySnocEmpty(parts, text);
    if AssemblerMatch(pattern, text) { GreedyIsSound(all, text); }
    if Spread(all, text) { GreedyIsComplete(all, text); }
  }

  lemma {:induction false} MatchesSnocStar(pattern: string, text: string)
    requires Matches(pattern, text)
    ensures Matches(pattern + "*", text)
    decreases |pattern|
  {
    if pattern == "" {
      assert pattern + "*" == "*";
      assert Matches("*"[1..], text[0..]);
    } else {
      assert (pattern + "*")[1..] == pattern[1..] + "*";
      if pattern[0] == '*' {
        var k :| 0 <= k <= |text| && Matches(pattern[1..], text[k..]);
        MatchesSnocStar(pattern[1..], text[k..]);
      } else {
        MatchesSnocStar(pattern[1..], text[1..]);
      }
    }
  }

  /** Whatever the engine's matcher accepts, the assembler's matcher accepts. */
  lemma EngineImpliesAssembler(pattern: string, text: string)
    requires EngineMatch(pattern, text)
    ensures AssemblerMatch(pattern, text)
  {
    EngineMatchIsSound(pattern, text);
    MatchesSnocStar(pattern, text);
    var open := "*" + pattern + "*";
    assert open[1..] == pattern + "*" && text[0..] == text;
    assert Matches(open, text);
    AssemblerMatchMeaning(pattern, text);
  }

  /** A literal followed by one star is a prefix test. */
  lemma LiteralStarIsPrefix(literal: string, text: string)
    requires '*' !in literal
    ensures EngineMatch(literal + "*", text) <==> literal <= text
  {
    SplitSnocStar(literal);
    LastPart(literal);
    assert Split(literal, '*') == [literal];
    var parts := Split(literal + "*", '*');
    assert parts == [literal, ""];
    if literal <= text {
      var rest := text[|literal|..];
      assert OccursAt(rest, "", 0);
      assert parts[1..] == [""];
      EmptyPartIsSkipped([""], rest);
    }
  }
}
