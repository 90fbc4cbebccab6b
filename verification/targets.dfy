/** The target text built from a tool call's arguments, and what the engine reads back out of it. */
module Targets {
  import opened GoStrings

  /** A JSON argument: only strings matter to the target. */
  datatype Arg = Str(s: string) | Other

  type Args = map<string, Arg>

  predicate HasStr(args: Args, key: string) { key in args && args[key].Str? }

  /** The string at `key`, or "". */
  function StrOr(args: Args, key: string): string {
    if HasStr(args, key) then args[key].s else ""
  }

  /** tools.ExtractTarget; `printed` is Go's default rendering of the whole argument map. */
  function ExtractTarget(args: Args, printed: string): string {
    if HasStr(args, "resource") then
      var ns := StrOr(args, "namespace");
      var name := StrOr(args, "name");
      args["resource"].s + (if ns != "" then " -n " + ns else "") + (if name != "" then " " + name else "")
    else if HasStr(args, "url") then args["url"].s
    else if HasStr(args, "server") then
      if HasStr(args, "tool") then args["server"].s + "/" + args["tool"].s else args["server"].s
    else if HasStr(args, "target") then args["target"].s
    else printed
  }

  predicate IsNamespaceFlag(part: string) { part == "-n" || part == "--namespace" }

  /** The word after the first namespace flag that has one. */
  function FlagValue(parts: seq<string>): string {
    if |parts| < 2 then ""
    else if IsNamespaceFlag(parts[0]) then parts[1]
    else FlagValue(parts[1..])
  }

  /** The first word that is neither a flag nor a namespace flag's value. */
  function FirstPlain(parts: seq<string>): string
    decreases |parts|
  {
    if parts == [] then ""
    else if IsNamespaceFlag(parts[0]) then (if |parts| >= 2 then FirstPlain(parts[2..]) else "")
    else if "-" <= parts[0] then FirstPlain(parts[1..])
    else parts[0]
  }

  function ResourceKindOf(target: string): string {
    var t := TrimSpace(target);
    var slash := IndexRune(t, '/');
    if slash > 0 then t[..slash]
    else if |Fields(t)| > 0 then Fields(t)[0]
    else t
  }

  function NamespaceOf(target: string): string { FlagValue(Fields(target)) }

  function ResourceNameOf(target: string): string {
    var t := TrimSpace(target);
    var slash := IndexRune(t, '/');
    if slash > 0 then
      var rest := t[slash + 1..];
      if |Fields(rest)| > 0 then Fields(rest)[0] else rest
    else if |Fields(t)| > 0 then FirstPlain(Fields(t)[1..])
    else ""
  }

  /** extractNamespace, as the loop it is. */
  method ExtractNamespace(target: string) returns (ns: string)
    ensures ns == NamespaceOf(target)
  {
    var parts := Fields(target);
    for i := 0 to |parts|
      invariant FlagValue(parts) == FlagValue(parts[i..])
    {
      if IsNamespaceFlag(parts[i]) && i + 1 < |parts| {
        return parts[i + 1];
      }
      assert parts[i..][1..] == parts[i + 1..];
    }
    return "";
  }

  /** extractResourceName, as the loop it is. */
  method ExtractResourceName(target: string) returns (name: string)
    ensures name == ResourceNameOf(target)
  {
    var t := TrimSpace(target);
    var idx := IndexRune(t, '/');
    if idx > 0 {
      var rest := t[idx + 1..];
      var words := Fields(rest);
      if |words| > 0 {
        return words[0];
      }
      return rest;
    }
    name := PlainAfterFirst(Fields(t));
  }

  /** The loop over the words after the first one. */
  method PlainAfterFirst(parts: seq<string>) returns (name: string)
    ensures name == if |parts| > 0 then FirstPlain(parts[1..]) else ""
  {
    var i := 1;
    while i < |parts|
      invariant 1 <= i
      invariant |parts| > 0 ==> FirstPlain(parts[1..]) == if i <= |parts| then FirstPlain(parts[i..]) else ""
    {
      assert parts[i..][1..] == parts[i + 1..];
      if IsNamespaceFlag(parts[i]) {
        if i + 2 <= |parts| { assert parts[i..][2..] == parts[i + 2..]; }
        i := i + 2;
        continue;
      }
      if "-" <= parts[i] {
        i := i + 1;
        continue;
      }
      return parts[i];
    }
    return "";
  }

  // ---------------------------------------------------------------- round trip

  function Words(resource: string, namespace: string, name: string): seq<string> {
    [resource] + (if namespace != "" then ["-n", namespace] else []) + (if name != "" then [name] else [])
  }

  predicate AllWords(ws: seq<string>) { forall i :: 0 <= i < |ws| ==> IsWord(ws[i]) }

  lemma WordLengthIs(w: string, rest: string)
    requires IsWord(w) && (rest == "" || IsSpace(rest[0]))
    ensures WordLength(w + rest) == |w|
  {
    var s := w + rest;
    assert forall i :: 0 <= i < |w| ==> s[i] == w[i];
    assert rest != "" ==> s[|w|] == rest[0];
  }

  lemma {:induction false} FieldsOfJoin(ws: seq<string>)
    requires AllWords(ws)
    ensures Fields(Join(ws, ' ')) == ws
    decreases |ws|
  {
    if |ws| == 1 {
      WordLengthIs(ws[0], "");
      assert ws[0] + "" == ws[0];
      assert Fields(ws[0][|ws[0]|..]) == [];
    } else if |ws| > 1 {
      var tail := Join(ws[1..], ' ');
      var s := Join(ws, ' ');
      assert s == ws[0] + ([' '] + tail);
      WordLengthIs(ws[0], [' '] + tail);
      assert s[..|ws[0]|] == ws[0] && s[|ws[0]|..] == [' '] + tail;
      assert TrimLeft(s) == s;
      SkipOneSpace(tail);
      FieldsOfJoin(ws[1..]);
    }
  }

  lemma SkipOneSpace(s: string)
    ensures Fields([' '] + s) == Fields(s)
  {
    assert ([' '] + s)[1..] == s;
  }

  lemma {:induction false} JoinEnds(ws: seq<string>)
    requires ws != [] && AllWords(ws)
    ensures var s := Join(ws, ' '); s != "" && !IsSpace(s[0]) && !IsSpace(s[|s| - 1])
    decreases |ws|
  {
    if |ws| > 1 {
      JoinEnds(ws[1..]);
    }
  }

  lemma {:induction false} JoinHasNo(ws: seq<string>, c: char)
    requires c != ' ' && forall i :: 0 <= i < |ws| ==> c !in ws[i]
    ensures c !in Join(ws, ' ')
    decreases |ws|
  {
    if |ws| > 1 {
      JoinHasNo(ws[1..], c);
    }
  }

  lemma TargetIsJoin(args: Args, printed: string)
    requires HasStr(args, "resource")
    ensures ExtractTarget(args, printed) ==
            Join(Words(args["resource"].s, StrOr(args, "namespace"), StrOr(args, "name")), ' ')
  {
    var resource, ns, name := args["resource"].s, StrOr(args, "namespace"), StrOr(args, "name");
    var ws := Words(resource, ns, name);
    if ns != "" && name != "" {
      assert ws[1..][1..][1..] == [name];
      assert Join(ws[1..][1..], ' ') == ns + " " + name;
      assert Join(ws[1..], ' ') == "-n" + " " + (ns + " " + name);
    } else if ns != "" {
      assert ws[1..][1..] == [ns];
      assert Join(ws[1..], ' ') == "-n" + " " + ns;
    } else if name != "" {
      assert ws[1..] == [name];
    }
  }

  /** Kubernetes arguments as the tools receive them: words without slashes, a name that is not a flag. */
  predicate PlainArgs(args: Args) {
    && HasStr(args, "resource")
    && var resource, ns, name := args["resource"].s, StrOr(args, "namespace"), StrOr(args, "name");
    && IsWord(resource) && '/' !in resource && !IsNamespaceFlag(resource)
    && (ns != "" ==> IsWord(ns) && '/' !in ns)
    && (name != "" ==> IsWord(name) && '/' !in name && name[0] != '-')
  }

  lemma WordsReadBack(resource: string, ns: string, name: string)
    requires !IsNamespaceFlag(resource) && (name != "" ==> name[0] != '-')
    ensures var ws := Words(resource, ns, name); FlagValue(ws) == ns && FirstPlain(ws[1..]) == name
  {
    var ws := Words(resource, ns, name);
    var last := if name != "" then [name] else [];
    if name != "" {
      assert name[0] != "-"[0];
    }
    assert FirstPlain(last) == name;
    if ns != "" {
      assert ws[1..] == ["-n", ns] + last;
      assert ws[1..][2..] == last;
    } else {
      assert ws[1..] == last;
    }
  }

  /** The engine reads back exactly the resource, namespace and name that were printed. */
  lemma TargetRoundTrip(args: Args, printed: string)
    requires PlainArgs(args)
    ensures var target := ExtractTarget(args, printed);
            && ResourceKindOf(target) == args["resource"].s
            && NamespaceOf(target) == StrOr(args, "namespace")
            && ResourceNameOf(target) == StrOr(args, "name")
  {
    var ws := Words(args["resource"].s, StrOr(args, "namespace"), StrOr(args, "name"));
    assert AllWords(ws) && forall i :: 0 <= i < |ws| ==> '/' !in ws[i] by {
      assert IsWord("-n") && '/' !in "-n";
    }
    TargetIsJoin(args, printed);
    JoinReadBack(ws);
    WordsReadBack(args["resource"].s, StrOr(args, "namespace"), StrOr(args, "name"));
  }

  lemma JoinReadBack(ws: seq<string>)
    requires ws != [] && AllWords(ws) && forall i :: 0 <= i < |ws| ==> '/' !in ws[i]
    ensures var target := Join(ws, ' ');
            && ResourceKindOf(target) == ws[0]
            && NamespaceOf(target) == FlagValue(ws)
            && ResourceNameOf(target) == FirstPlain(ws[1..])
  {
    FieldsOfJoin(ws);
    JoinEnds(ws);
    JoinHasNo(ws, '/');
  }

  // ---------------------------------------------------------------- only the namespace

  lemma FieldsOfTrimmed(s: string)
    ensures Fields(TrimLeft(s)) == Fields(s)
  {
  }

  lemma {:induction false} TrimLeftConcat(a: string, b: string)
    ensures TrimLeft(a + b) == if TrimLeft(a) == "" then TrimLeft(b) else TrimLeft(a) + b
  {
    if a == "" {
      assert a + b == b;
    } else if IsSpace(a[0]) {
      assert (a + b)[1..] == a[1..] + b;
      TrimLeftConcat(a[1..], b);
    }
  }

  lemma FieldsStep(w: string, rest: string)
    requires IsWord(w) && (rest == "" || IsSpace(rest[0]))
    ensures Fields(w + rest) == [w] + Fields(rest)
  {
    WordLengthIs(w, rest);
    assert (w + rest)[0] == w[0] && (w + rest)[..|w|] == w && (w + rest)[|w|..] == rest;
  }

  /** The word ends where `rest` begins. */
  predicate WholeWord(w: string, rest: string) { IsWord(w) && (rest == "" || IsSpace(rest[0])) }

  /** What splitting into words means: spaces in front are dropped, then a whole word is taken. */
  ghost predicate Splits(f: string -> seq<string>) {
    && (forall s :: f(s) == f(TrimLeft(s)))
    && (forall w: string, rest: string {:trigger WholeWord(w, rest)} :: WholeWord(w, rest) ==> f(w + rest) == [w] + f(rest))
    && f("") == []
  }

  lemma CutWord(t: string) returns (w: string, rest: string)
    requires t != "" && !IsSpace(t[0])
    ensures t == w + rest && |rest| < |t| && WholeWord(w, rest)
  {
    var n := WordLength(t);
    w, rest := t[..n], t[n..];
  }

  lemma SplitsWord(f: string -> seq<string>, w: string, rest: string, b: string)
    requires Splits(f) && WholeWord(w, rest) && f(rest + ([' '] + b)) == f(rest) + f(b)
    ensures f(w + rest + ([' '] + b)) == f(w + rest) + f(b)
  {
    var spaced := rest + ([' '] + b);
    assert w + rest + ([' '] + b) == w + spaced;
    assert WholeWord(w, spaced);
  }

  /** A text with a space between its two parts is split like the parts. */
  lemma {:induction false} SplitsParts(f: string -> seq<string>, a: string, b: string)
    requires Splits(f)
    ensures f(a + ([' '] + b)) == f(a) + f(b)
    decreases |a|
  {
    var spaced, t := [' '] + b, TrimLeft(a);
    TrimLeftConcat(a, spaced);
    if t == "" {
      assert spaced[1..] == b;
    } else {
      var w, rest := CutWord(t);
      SplitsParts(f, rest, b);
      SplitsWord(f, w, rest, b);
    }
  }

  lemma FieldsSplit()
    ensures Splits(Fields)
  {
    forall s ensures Fields(s) == Fields(TrimLeft(s)) {
      FieldsOfTrimmed(s);
    }
    forall w: string, rest: string | WholeWord(w, rest)
      ensures Fields(w + rest) == [w] + Fields(rest)
    {
      FieldsStep(w, rest);
    }
  }

  /** The value of the first namespace flag when one more is appended. */
  lemma {:induction false} FlagAppended(words: seq<string>, ns: string, rest: seq<string>)
    requires AllWords(words)
    ensures FlagValue(words + (["-n", ns] + rest)) ==
            if FlagValue(words + ["-n"]) == "" then ns else FlagValue(words + ["-n"])
    decreases |words|
  {
    var all := words + (["-n", ns] + rest);
    if words == [] {
      assert all == ["-n", ns] + rest && words + ["-n"] == ["-n"];
    } else {
      assert all[1..] == words[1..] + (["-n", ns] + rest);
      assert (words + ["-n"])[1..] == words[1..] + ["-n"];
      FlagAppended(words[1..], ns, rest);
      assert IsWord((words + ["-n"])[1]) by { assert IsWord("-n"); }
      assert all[1] == (words + ["-n"])[1];
    }
  }

  /** No word of the resource is taken for another namespace. */
  predicate NamesNamespace(args: Args) {
    && HasStr(args, "resource") && IsWord(StrOr(args, "namespace"))
    && FlagValue(Fields(args["resource"].s) + ["-n"]) in {"", StrOr(args, "namespace")}
  }

  ghost predicate Distributes(f: string -> seq<string>) {
    forall a: string, b: string {:trigger f(a + ([' '] + b))} :: f(a + ([' '] + b)) == f(a) + f(b)
  }

  /** What any such splitter makes of the printed text. */
  lemma FlagText(f: string -> seq<string>, resource: string, flag: string, ns: string, name: string)
    requires Distributes(f) && f(flag) == [flag] && f(ns) == [ns]
    ensures f(resource + ([' '] + (flag + ([' '] + ns)))) == f(resource) + ([flag, ns] + [])
    ensures f(resource + ([' '] + (flag + ([' '] + (ns + ([' '] + name)))))) == f(resource) + ([flag, ns] + f(name))
  {
  }

  lemma PrintedNamespace(args: Args, printed: string)
    requires HasStr(args, "resource") && StrOr(args, "namespace") != ""
    ensures var resource, ns, name := args["resource"].s, StrOr(args, "namespace"), StrOr(args, "name");
            ExtractTarget(args, printed) ==
            resource + ([' '] + ("-n" + ([' '] + if name != "" then ns + ([' '] + name) else ns)))
  {
  }

  lemma FieldsDistribute()
    ensures Distributes(Fields)
  {
    FieldsSplit();
    forall a: string, b: string ensures Fields(a + ([' '] + b)) == Fields(a) + Fields(b) {
      SplitsParts(Fields, a, b);
    }
  }

  /** The namespace is read back exactly then, whatever else the resource and the name hold. */
  lemma NamespaceReadBack(args: Args, printed: string)
    requires HasStr(args, "resource") && IsWord(StrOr(args, "namespace"))
    ensures NamespaceOf(ExtractTarget(args, printed)) == StrOr(args, "namespace") <==> NamesNamespace(args)
  {
    var resource, ns, name := args["resource"].s, StrOr(args, "namespace"), StrOr(args, "name");
    FieldsDistribute();
    FieldsOfWord("-n");
    FieldsOfWord(ns);
    FlagText(Fields, resource, "-n", ns, name);
    PrintedNamespace(args, printed);
    FlagAppended(Fields(resource), ns, if name != "" then Fields(name) else []);
  }

  lemma FieldsOfWord(w: string)
    requires IsWord(w)
    ensures Fields(w) == [w]
  {
    FieldsOfJoin([w]);
  }

  // ---------------------------------------------------------------- only the kind

  lemma {:induction false} TrimRightWord(w: string, rest: string)
    requires IsWord(w)
    ensures TrimRight(w + rest) == w + TrimRight(rest)
    decreases |rest|
  {
    if rest == "" {
      assert w + rest == w;
      assert w + "" == w;
    } else {
      var n := |rest| - 1;
      assert (w + rest)[..|w| + n] == w + rest[..n];
      TrimRightWord(w, rest[..n]);
    }
  }

  lemma {:induction false} TrimRightKeeps(s: string, c: char)
    requires !IsSpace(c)
    ensures c in TrimRight(s) <==> c in s
    decreases |s|
  {
    if s != "" && IsSpace(s[|s| - 1]) {
      TrimRightKeeps(s[..|s| - 1], c);
      assert s == s[..|s| - 1] + [s[|s| - 1]];
    }
  }

  /** The first word is taken for the kind exactly when no slash follows it. */
  lemma KindOfText(w: string, rest: string)
    requires WholeWord(w, rest) && '/' !in w
    ensures ResourceKindOf(w + rest) == w <==> '/' !in rest
  {
    var tail := TrimRight(rest);
    assert TrimLeft(w + rest) == w + rest;
    TrimRightWord(w, rest);
    TrimRightKeeps(rest, '/');
    var t := w + tail;
    assert WholeWord(w, tail);
    if '/' in tail {
      var slash := IndexRune(t, '/');
      assert t[slash] == '/' && slash >= |w|;
      assert slash != |w|;
    } else {
      FieldsStep(w, tail);
    }
  }

  /** What follows the resource in the target. */
  function AfterResource(args: Args): string {
    var ns, name := StrOr(args, "namespace"), StrOr(args, "name");
    (if ns != "" then " -n " + ns else "") + (if name != "" then " " + name else "")
  }

  /** The kind is read back exactly when neither namespace nor name hold a slash. */
  lemma KindReadBack(args: Args, printed: string)
    requires HasStr(args, "resource") && IsWord(args["resource"].s) && '/' !in args["resource"].s
    ensures ResourceKindOf(ExtractTarget(args, printed)) == args["resource"].s <==>
            '/' !in StrOr(args, "namespace") && '/' !in StrOr(args, "name")
  {
    var resource, rest := args["resource"].s, AfterResource(args);
    assert ExtractTarget(args, printed) == resource + rest;
    assert rest == "" || rest[0] == ' ';
    KindOfText(resource, rest);
    var ns, name := StrOr(args, "namespace"), StrOr(args, "name");
    assert '/' in rest <==> '/' in ns || '/' in name by {
      assert '/' !in " -n " && '/' !in " ";
    }
  }

  // ---------------------------------------------------------------- other targets

  /** A call without a resource is judged by its URL, its server and tool, its target or all its arguments. */
  lemma OtherTargets(args: Args, printed: string)
    requires !HasStr(args, "resource")
    ensures HasStr(args, "url") ==> ExtractTarget(args, printed) == args["url"].s
    ensures !HasStr(args, "url") && HasStr(args, "server") ==>
              ExtractTarget(args, printed) == args["server"].s + if HasStr(args, "tool") then "/" + args["tool"].s else ""
    ensures !HasStr(args, "url") && !HasStr(args, "server") && HasStr(args, "target") ==>
              ExtractTarget(args, printed) == args["target"].s
    ensures !HasStr(args, "url") && !HasStr(args, "server") && !HasStr(args, "target") ==>
              ExtractTarget(args, printed) == printed
  {
  }

  /** The namespace is what follows the first of the two flags; without a value there is none. */
  lemma {:induction false} FlagValueIs(ws: seq<string>, i: nat)
    requires i <= |ws| && forall j :: 0 <= j < i ==> ws[j] != "-n" && ws[j] != "--namespace"
    ensures i + 1 < |ws| && (ws[i] == "-n" || ws[i] == "--namespace") ==> FlagValue(ws) == ws[i + 1]
    ensures i + 1 >= |ws| ==> FlagValue(ws) == ""
    decreases i
  {
    if i > 0 {
      assert forall j :: 0 <= j < i - 1 ==> ws[1..][j] == ws[j + 1];
      FlagValueIs(ws[1..], i - 1);
    }
  }

  /** The name is the first word that is neither a flag nor the value of a namespace flag. */
  lemma FirstPlainLaws(w: string, ns: string, ws: seq<string>)
    ensures FirstPlain([]) == ""
    ensures w == "" || w[0] != '-' ==> FirstPlain([w] + ws) == w
    ensures w == "-n" || w == "--namespace" ==> FirstPlain([w]) == "" && FirstPlain([w, ns] + ws) == FirstPlain(ws)
    ensures w != "" && w[0] == '-' && w != "-n" && w != "--namespace" ==> FirstPlain([w] + ws) == FirstPlain(ws)
  {
    assert ([w] + ws)[1..] == ws && ([w, ns] + ws)[2..] == ws;
    assert "-n"[0] == "--namespace"[0] == "-"[0] == '-';
  }

  lemma TrimSpaceWord(w: string, rest: string)
    requires IsWord(w)
    ensures TrimSpace(w + rest) == w + TrimRight(rest)
  {
    assert TrimLeft(w + rest) == w + rest;
    TrimRightWord(w, rest);
  }

  /** The first slash separates what precedes it, if that holds none. */
  lemma CutAtSlash(head: string, tail: string)
    requires '/' !in head
    ensures var s := head + "/" + tail;
            IndexRune(s, '/') == |head| && s[..|head|] == head && s[|head| + 1..] == tail
  {
    var s := head + "/" + tail;
    assert s[|head|] == '/' && s[..|head|] == head;
    IndexRuneIs(s, '/', |head|);
  }

  lemma FirstField(name: string, tail: string)
    requires WholeWord(name, tail)
    ensures |Fields(name + tail)| > 0 && Fields(name + tail)[0] == name
  {
    FieldsStep(name, tail);
  }

  lemma KindAndName(target: string, t: string, kind: string, text: string, name: string)
    requires t == TrimSpace(target) && IndexRune(t, '/') == |kind| > 0 && t[..|kind|] == kind && t[|kind| + 1..] == text
    requires |Fields(text)| > 0 && Fields(text)[0] == name
    ensures ResourceKindOf(target) == kind && ResourceNameOf(target) == name
  {
  }

  /** In `kind/name` the slash separates the two. */
  lemma SlashReadBack(kind: string, name: string, rest: string)
    requires IsWord(kind) && '/' !in kind && WholeWord(name, rest)
    ensures var target := kind + "/" + name + rest; ResourceKindOf(target) == kind && ResourceNameOf(target) == name
  {
    var w, tail := kind + "/" + name, TrimRight(rest);
    TrimSpaceWord(w, rest);
    assert w + tail == kind + "/" + (name + tail);
    CutAtSlash(kind, name + tail);
    FirstField(name, tail);
    KindAndName(w + rest, w + tail, kind, name + tail, name);
  }
}
