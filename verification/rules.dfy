/** The hardcoded data protection rules, in plain words instead of patterns. */
module Rules {
  import opened GoStrings
  import opened Targets
  import DP = DataProtection
  import Glob

  /** What a pair of patterns refuses. */
  datatype Meaning =
    | Starts(tool: string, literal: string)                    // this tool, on targets that start so
    | Holds(tool: string, literal: string)                     // this tool, on targets that hold this
    | HoldsBoth(tool: string, first: string, second: string)   // ... and this somewhere after it
    | Family(prefix: string, literal: string)                  // every tool that starts so, on targets that hold this
    | Named(prefix: string, suffix: string)                    // every tool named so, on any target
  {
    /** In lower case: the tool and the target. */
    ghost predicate Refuses(tool': string, target: string) {
      match this
      case Starts(tool, literal) => tool' == tool && literal <= target
      case Holds(tool, literal) => tool' == tool && Contains(target, literal)
      case HoldsBoth(tool, first, second) => tool' == tool && Glob.Matches("*" + first + "*" + second + "*", target)
      case Family(prefix, literal) => prefix <= tool' && Contains(target, literal)
      case Named(prefix, suffix) =>
        // no shorter part of the tool's name is named so: the matcher's limit for such patterns
        && Glob.Matches(prefix + "*" + suffix, tool')
        && forall n :: 0 <= n < |tool'| ==> !Glob.Matches(prefix + "*" + suffix, tool'[..n])
    }
  }

  const MEANINGS: seq<Meaning> := [
    Starts("kubectl.delete", "pvc"),
    Starts("kubectl.delete", "pv"),
    Starts("kubectl.delete", "persistentvolumeclaim"),
    Starts("kubectl.delete", "persistentvolume"),
    Starts("kubectl.delete", "namespace"),
    Starts("kubectl.delete", "ns"),
    Starts("kubectl.delete", "cluster"),
    HoldsBoth("kubectl.patch", "reclaimpolicy", "delete"),
    Holds("http.delete", "s3"),
    Holds("http.delete", "minio"),
    Named("mcp.", ".delete"),
    Family("sql.", "drop"),
    Family("sql.", "truncate"),
    Holds("sql.execute", "delete from")
  ]

  predicate NoStar(s: string) { forall i :: 0 <= i < |s| ==> s[i] != '*' }

  /** In lower case `s` is `t`. */
  predicate LowersTo(s: string, t: string) {
    |s| == |t| && forall i :: 0 <= i < |s| ==> LowerRune(s[i]) == t[i]
  }

  lemma Lowered(s: string, t: string)
    requires LowersTo(s, t)
    ensures ToLower(s) == t
  {
  }

  /** The patterns are those of the meaning. */
  predicate Encodes(p: (string, string), m: Meaning) {
    match m
    case Starts(tool, literal) => NoStar(tool) && NoStar(literal) && LowersTo(p.0, tool) && LowersTo(p.1, literal + "*")
    case Holds(tool, literal) => NoStar(tool) && NoStar(literal) && LowersTo(p.0, tool) && LowersTo(p.1, "*" + literal + "*")
    case HoldsBoth(tool, first, second) =>
      NoStar(tool) && LowersTo(p.0, tool) && LowersTo(p.1, "*" + first + "*" + second + "*")
    case Family(prefix, literal) =>
      NoStar(prefix) && NoStar(literal) && LowersTo(p.0, prefix + "*") && LowersTo(p.1, "*" + literal + "*")
    case Named(prefix, suffix) =>
      NoStar(prefix) && NoStar(suffix) && suffix != "" && LowersTo(p.0, prefix + "*" + suffix) && LowersTo(p.1, "*")
  }

  lemma LiteralMatch(literal: string, text: string)
    requires NoStar(literal)
    ensures Glob.EngineMatch(literal, text) <==> literal == text
  {
    Glob.OnePart(literal);
  }

  lemma HoldsMatch(literal: string, text: string)
    requires NoStar(literal)
    ensures Glob.EngineMatch("*" + literal + "*", text) <==> Contains(text, literal)
  {
    var open := "*" + literal + "*";
    assert open[|open| - 1] == '*';
    Glob.EngineMatchExactIff(open);
    Glob.AssemblerMatchMeaning(literal, text);
    Glob.OnePart(literal);
    assert Split(literal, '*') == [literal];
    OneGreedyPart(literal, text);
  }

  lemma OneGreedyPart(part: string, text: string)
    ensures Glob.Greedy([part], text).Rest? <==> Contains(text, part)
  {
    assert [part][1..] == [];
  }

  lemma OpenMatch(pattern: string, text: string)
    requires pattern != "" && pattern[|pattern| - 1] == '*'
    ensures Glob.EngineMatch(pattern, text) <==> Glob.Matches(pattern, text)
  {
    Glob.EngineMatchExactIff(pattern);
  }

  lemma NamedMatch(prefix: string, suffix: string, text: string)
    requires NoStar(suffix) && suffix != ""
    ensures var pattern := prefix + "*" + suffix;
            Glob.EngineMatch(pattern, text) <==>
            Glob.Matches(pattern, text) && forall n :: 0 <= n < |text| ==> !Glob.Matches(pattern, text[..n])
  {
    var pattern := prefix + "*" + suffix;
    assert pattern[|prefix|] == '*' && pattern[|pattern| - 1] == suffix[|suffix| - 1];
    Glob.ClosedPatternAccepts(pattern, text);
  }

  lemma AnyMatch(text: string)
    ensures Glob.EngineMatch("*", text)
  {
    Glob.LiteralStarIsPrefix("", text);
    assert "" + "*" == "*";
  }

  lemma PrefixMatch(prefix: string, text: string)
    requires NoStar(prefix)
    ensures Glob.EngineMatch(prefix + "*", text) <==> prefix <= text
  {
    Glob.LiteralStarIsPrefix(prefix, text);
  }

  lemma EncodedMeans(p: (string, string), m: Meaning, tool: string, target: string)
    requires Encodes(p, m)
    ensures DP.MatchesPattern(p, tool, target) <==> m.Refuses(ToLower(tool), ToLower(target))
  {
    var t, x := ToLower(tool), ToLower(target);
    match m {
      case Starts(name, literal) =>
        Lowered(p.0, name);
        Lowered(p.1, literal + "*");
        LiteralMatch(name, t);
        PrefixMatch(literal, x);
      case Holds(name, literal) =>
        Lowered(p.0, name);
        Lowered(p.1, "*" + literal + "*");
        LiteralMatch(name, t);
        HoldsMatch(literal, x);
      case HoldsBoth(name, first, second) =>
        Lowered(p.0, name);
        Lowered(p.1, "*" + first + "*" + second + "*");
        LiteralMatch(name, t);
        OpenMatch("*" + first + "*" + second + "*", x);
      case Family(prefix, literal) =>
        Lowered(p.0, prefix + "*");
        Lowered(p.1, "*" + literal + "*");
        PrefixMatch(prefix, t);
        HoldsMatch(literal, x);
      case Named(prefix, suffix) =>
        Lowered(p.0, prefix + "*" + suffix);
        Lowered(p.1, "*");
        NamedMatch(prefix, suffix, t);
        AnyMatch(x);
    }
  }

  /** The table of patterns encodes the table of meanings. */
  ghost predicate AllEncoded(patterns: seq<(string, string)>, meanings: seq<Meaning>) {
    |patterns| == |meanings| && forall i :: 0 <= i < |patterns| ==> Encodes(patterns[i], meanings[i])
  }

  lemma StartsEncoded(p: (string, string), tool: string, literal: string)
    requires NoStar(tool) && NoStar(literal) && LowersTo(tool, tool) && LowersTo(literal, literal)
    requires p == (tool, literal + "*")
    ensures Encodes(p, Starts(tool, literal))
  {
  }

  lemma HoldsEncoded(p: (string, string), tool: string, literal: string)
    requires NoStar(tool) && NoStar(literal) && LowersTo(tool, tool) && LowersTo(literal, literal)
    requires p == (tool, "*" + literal + "*")
    ensures Encodes(p, Holds(tool, literal))
  {
  }

  lemma FamilyEncoded(p: (string, string), prefix: string, literal: string)
    requires NoStar(prefix) && NoStar(literal) && LowersTo(prefix, prefix) && LowersTo(literal, literal)
    requires p == (prefix + "*", "*" + literal + "*")
    ensures Encodes(p, Family(prefix, literal))
  {
  }

  lemma Rule0()
    ensures Encodes(("kubectl.delete", "pvc*"), Starts("kubectl.delete", "pvc"))
  {
    assert "pvc" + "*" == "pvc*";
    StartsEncoded(("kubectl.delete", "pvc*"), "kubectl.delete", "pvc");
  }

  lemma Rule1()
    ensures Encodes(("kubectl.delete", "pv*"), Starts("kubectl.delete", "pv"))
  {
    assert "pv" + "*" == "pv*";
    StartsEncoded(("kubectl.delete", "pv*"), "kubectl.delete", "pv");
  }

  lemma Rule2()
    ensures Encodes(("kubectl.delete", "persistentvolumeclaim*"), Starts("kubectl.delete", "persistentvolumeclaim"))
  {
    assert "persistentvolumeclaim" + "*" == "persistentvolumeclaim*";
    StartsEncoded(("kubectl.delete", "persistentvolumeclaim*"), "kubectl.delete", "persistentvolumeclaim");
  }

  lemma Rule3()
    ensures Encodes(("kubectl.delete", "persistentvolume*"), Starts("kubectl.delete", "persistentvolume"))
  {
    assert "persistentvolume" + "*" == "persistentvolume*";
    StartsEncoded(("kubectl.delete", "persistentvolume*"), "kubectl.delete", "persistentvolume");
  }

  lemma Rule4()
    ensures Encodes(("kubectl.delete", "namespace*"), Starts("kubectl.delete", "namespace"))
  {
    assert "namespace" + "*" == "namespace*";
    StartsEncoded(("kubectl.delete", "namespace*"), "kubectl.delete", "namespace");
  }

  lemma Rule5()
    ensures Encodes(("kubectl.delete", "ns*"), Starts("kubectl.delete", "ns"))
  {
    assert "ns" + "*" == "ns*";
    StartsEncoded(("kubectl.delete", "ns*"), "kubectl.delete", "ns");
  }

  lemma Rule6()
    ensures Encodes(("kubectl.delete", "cluster*"), Starts("kubectl.delete", "cluster"))
  {
    assert "cluster" + "*" == "cluster*";
    StartsEncoded(("kubectl.delete", "cluster*"), "kubectl.delete", "cluster");
  }

  lemma Rule7()
    ensures Encodes(("kubectl.patch", "*reclaimPolicy*Delete*"), HoldsBoth("kubectl.patch", "reclaimpolicy", "delete"))
  {
    PatchPattern("*" + "reclaimpolicy" + "*" + "delete" + "*");
  }

  lemma PatchPattern(lower: string)
    requires lower == "*" + "reclaimpolicy" + "*" + "delete" + "*"
    ensures LowersTo("*reclaimPolicy*Delete*", lower)
  {
    assert lower == "*reclaimpolicy*delete*";
  }

  lemma Rule8()
    ensures Encodes(("http.delete", "*s3*"), Holds("http.delete", "s3"))
  {
    assert "*" + "s3" + "*" == "*s3*";
    HoldsEncoded(("http.delete", "*s3*"), "http.delete", "s3");
  }

  lemma Rule9()
    ensures Encodes(("http.delete", "*minio*"), Holds("http.delete", "minio"))
  {
    assert "*" + "minio" + "*" == "*minio*";
    HoldsEncoded(("http.delete", "*minio*"), "http.delete", "minio");
  }

  lemma Rule10()
    ensures Encodes(("mcp.*.delete", "*"), Named("mcp.", ".delete"))
  {
    assert "mcp." + "*" + ".delete" == "mcp.*.delete";
  }

  lemma Rule11()
    ensures Encodes(("sql.*", "*drop*"), Family("sql.", "drop"))
  {
    assert "*" + "drop" + "*" == "*drop*" && "sql." + "*" == "sql.*";
    FamilyEncoded(("sql.*", "*drop*"), "sql.", "drop");
  }

  lemma Rule12()
    ensures Encodes(("sql.*", "*truncate*"), Family("sql.", "truncate"))
  {
    assert "*" + "truncate" + "*" == "*truncate*" && "sql." + "*" == "sql.*";
    FamilyEncoded(("sql.*", "*truncate*"), "sql.", "truncate");
  }

  lemma Rule13()
    ensures Encodes(("sql.execute", "*delete from*"), Holds("sql.execute", "delete from"))
  {
    assert "*" + "delete from" + "*" == "*delete from*";
    HoldsEncoded(("sql.execute", "*delete from*"), "sql.execute", "delete from");
  }

  lemma TableEncoded()
    ensures AllEncoded(DP.PROTECTED_PATTERNS, MEANINGS)
  {
    Rule0();
    Rule1();
    Rule2();
    Rule3();
    Rule4();
    Rule5();
    Rule6();
    Rule7();
    Rule8();
    Rule9();
    Rule10();
    Rule11();
    Rule12();
    Rule13();
  }

  lemma PatternsMean(patterns: seq<(string, string)>, meanings: seq<Meaning>, tool: string, target: string)
    requires AllEncoded(patterns, meanings)
    ensures (exists i {:trigger DP.MatchesPattern(patterns[i], tool, target)} ::
               0 <= i < |patterns| && DP.MatchesPattern(patterns[i], tool, target)) <==>
            (exists i :: 0 <= i < |meanings| && meanings[i].Refuses(ToLower(tool), ToLower(target)))
  {
    forall i | 0 <= i < |patterns|
      ensures DP.MatchesPattern(patterns[i], tool, target) <==> meanings[i].Refuses(ToLower(tool), ToLower(target))
    {
      EncodedMeans(patterns[i], meanings[i], tool, target);
    }
  }

  // ---------------------------------------------------------------- all the rules

  /** The kinds that no delete tool may touch. */
  const KINDS: set<string> := {
    "persistentvolumeclaim", "persistentvolume", "pvc", "pv", "namespace", "ns",
    "cluster", "pooler", "scheduledbackup", "backup",
    "postgrescluster", "mysqlcluster", "redisfailover", "cassandradatacenter",
    "elasticsearchcluster", "kafkacluster", "mongodbcommunity"
  }

  predicate SaysDelete(tool: string) {
    Contains(tool, "delete") || Contains(tool, "remove") || Contains(tool, "destroy") || Contains(tool, "purge")
  }

  predicate SaysSql(text: string) {
    || Contains(text, "drop database") || Contains(text, "drop table")
    || Contains(text, "truncate ") || Contains(text, "delete from ")
  }

  lemma SqlIs(text: string)
    ensures DP.HoldsOne(text, DP.SQL_DESTRUCTIVE) <==> SaysSql(text)
  {
    var sql := DP.SQL_DESTRUCTIVE;
    assert |sql| == 4 && sql[0] == "drop database" && sql[1] == "drop table" && sql[2] == "truncate " && sql[3] == "delete from ";
    if SaysSql(text) {
      assert Contains(text, sql[0]) || Contains(text, sql[1]) || Contains(text, sql[2]) || Contains(text, sql[3]);
    }
  }

  lemma RefuseBy(rules: DP.Rules, meanings: seq<Meaning>, tool: string, target: string)
    requires AllEncoded(rules.patterns, meanings)
    ensures rules.Refuse(tool, target) <==>
            || (DP.IsDeleteTool(tool) && ToLower(ResourceKindOf(target)) in rules.kinds)
            || (exists i :: 0 <= i < |meanings| && meanings[i].Refuses(ToLower(tool), ToLower(target)))
            || DP.HoldsOne(ToLower(tool + " " + target), rules.sql)
  {
    PatternsMean(rules.patterns, meanings, tool, target);
  }

  /** The call is refused if and only if it deletes a kind of the table, means what a rule means, or says SQL. */
  lemma RefusedIff(tool: string, target: string)
    ensures DP.Refuses(tool, target) <==>
            || (SaysDelete(ToLower(tool)) && ToLower(ResourceKindOf(target)) in KINDS)
            || (exists i :: 0 <= i < |MEANINGS| && MEANINGS[i].Refuses(ToLower(tool), ToLower(target)))
            || SaysSql(ToLower(tool + " " + target))
  {
    TableEncoded();
    SqlIs(ToLower(tool + " " + target));
    RefuseBy(DP.RULES, MEANINGS, tool, target);
    assert DP.RULES.kinds == KINDS;
  }
}
