/** End-to-end guarantees: from a tool call's arguments to the engine's decision. */
module Protection {
  import opened GoStrings
  import opened Types
  import opened DataResources
  import opened Targets
  import opened Kubectl
  import opened Engine
  import DP = DataProtection
  import Glob

  /** No capital letter and no star. */
  predicate LowerLiteral(s: string) {
    forall i :: 0 <= i < |s| ==> !('A' <= s[i] <= 'Z') && s[i] != '*'
  }

  lemma LowerLiteralFacts(s: string)
    requires LowerLiteral(s)
    ensures ToLower(s) == s && ToLower(s + "*") == s + "*"
    ensures '*' !in s && Glob.EngineMatch(s, s)
  {
    ToLowerConcat(s, "*");
    assert ToLower("*") == "*";
    Glob.LastPart(s);
  }

  lemma PrefixPattern(tool: string, literal: string, target: string)
    requires LowerLiteral(tool) && LowerLiteral(literal) && literal <= ToLower(target)
    ensures DP.MatchesPattern((tool, literal + "*"), tool, target)
  {
    LowerLiteralFacts(tool);
    LowerLiteralFacts(literal);
    Glob.LiteralStarIsPrefix(literal, ToLower(target));
  }

  /** The target of a kubectl call starts with the resource as it was spelled. */
  lemma TargetStartsWithResource(args: Args, printed: string)
    requires HasStr(args, "resource")
    ensures ToLower(args["resource"].s) <= ToLower(ExtractTarget(args, printed))
  {
    var target := ExtractTarget(args, printed);
    var resource := args["resource"].s;
    assert resource <= target;
    assert target == resource + target[|resource|..];
    ToLowerConcat(resource, target[|resource|..]);
  }

  /** `literal*` is one of the target patterns that `tool` is checked against. */
  predicate HasRule(rules: DP.Rules, tool: string, literal: string) {
    exists i :: 0 <= i < |rules.patterns| && rules.patterns[i] == (tool, literal + "*")
  }

  predicate DeleteRule(literal: string) { HasRule(DP.RULES, "kubectl.delete", literal) }

  lemma VolumeRules()
    ensures DeleteRule("pv") && DeleteRule("persistentvolume")
  {
    assert "pv" + "*" == "pv*" && "persistentvolume" + "*" == "persistentvolume*";
    assert DP.RULES.patterns[1] == ("kubectl.delete", "pv*");
    assert DP.RULES.patterns[3] == ("kubectl.delete", "persistentvolume*");
  }

  lemma NamespaceRules()
    ensures DeleteRule("namespace") && DeleteRule("ns")
  {
    assert "namespace" + "*" == "namespace*" && "ns" + "*" == "ns*";
    assert DP.RULES.patterns[4] == ("kubectl.delete", "namespace*");
    assert DP.RULES.patterns[5] == ("kubectl.delete", "ns*");
  }

  lemma ClusterRule()
    ensures DeleteRule("cluster")
  {
    assert "cluster" + "*" == "cluster*";
    assert DP.RULES.patterns[6] == ("kubectl.delete", "cluster*");
  }

  lemma RefusedBy(rules: DP.Rules, tool: string, literal: string, target: string)
    requires HasRule(rules, tool, literal)
    requires LowerLiteral(tool) && LowerLiteral(literal) && literal <= ToLower(target)
    ensures rules.Refuse(tool, target)
  {
    PrefixPattern(tool, literal, target);
  }

  lemma SpellingsAreLower()
    ensures LowerLiteral("pv") && LowerLiteral("persistentvolume")
    ensures LowerLiteral("namespace") && LowerLiteral("ns") && LowerLiteral("cluster")
  {
  }

  lemma RefusedByOneOf(rules: DP.Rules, tool: string, target: string)
    requires HasRule(rules, tool, "pv") && HasRule(rules, tool, "persistentvolume")
    requires HasRule(rules, tool, "namespace") && HasRule(rules, tool, "ns") && HasRule(rules, tool, "cluster")
    requires LowerLiteral(tool) && DataSpelling(ToLower(target))
    ensures rules.Refuse(tool, target)
  {
    var lower := ToLower(target);
    SpellingsAreLower();
    if "pv" <= lower {
      RefusedBy(rules, tool, "pv", target);
    } else if "persistentvolume" <= lower {
      RefusedBy(rules, tool, "persistentvolume", target);
    } else if "namespace" <= lower {
      RefusedBy(rules, tool, "namespace", target);
    } else if "ns" <= lower {
      RefusedBy(rules, tool, "ns", target);
    } else {
      RefusedBy(rules, tool, "cluster", target);
    }
  }

  /** kubectl.delete is refused on every target that starts with a data resource's spelling. */
  lemma DataSpellingRefused(target: string)
    requires DataSpelling(ToLower(target))
    ensures DP.Refuses("kubectl.delete", target)
  {
    VolumeRules();
    NamespaceRules();
    ClusterRule();
    RefusedByOneOf(DP.RULES, "kubectl.delete", target);
  }

  lemma SpellingExtends(a: string, b: string)
    requires DataSpelling(a) && a <= b
    ensures DataSpelling(b)
  {
  }

  /**
   * Deleting a volume claim, a volume, a namespace or a database cluster is refused however the
   * resource is spelled, whatever its name and namespace, under any registry, autonomy, approval
   * mode, tool classification and history.
   */
  lemma ProtectedKindsNeverDeleted(
    e: Config, records: Cooldowns, args: Args, printed: string, now: int, d: Decision)
    requires HasStr(args, "resource")
    requires HoldsData(ResourceToGVR(args["resource"].s))
    requires EvaluationOf(e, records, "kubectl.delete", ExtractTarget(args, printed), now, d)
    ensures d.stage == Stage.DataProtection
    ensures !d.allowed && !d.needsApproval && d.status == Blocked && d.tier == DataMutation
  {
    var target := ExtractTarget(args, printed);
    DataSpellings(args["resource"].s);
    TargetStartsWithResource(args, printed);
    SpellingExtends(ToLower(args["resource"].s), ToLower(target));
    DataSpellingRefused(target);
    RefusedFirst(e, records, "kubectl.delete", target, now, d);
  }

  /** No delete tool of any kind touches a protected kind that is named as in the table, in any letter case. */
  lemma DeleteToolsSpareProtectedKinds(
    e: Config, records: Cooldowns, tool: string, args: Args, printed: string, now: int, d: Decision)
    requires DP.IsDeleteTool(tool) && HasStr(args, "resource") && IsWord(args["resource"].s) && '/' !in args["resource"].s
    requires '/' !in StrOr(args, "namespace") && '/' !in StrOr(args, "name")
    requires ToLower(args["resource"].s) in DP.PROTECTED_KINDS
    requires EvaluationOf(e, records, tool, ExtractTarget(args, printed), now, d)
    ensures d.stage == Stage.DataProtection
    ensures !d.allowed && !d.needsApproval && d.status == Blocked && d.tier == DataMutation
  {
    KindReadBack(args, printed);
    KindRefused(DP.RULES, tool, ExtractTarget(args, printed));
    RefusedFirst(e, records, tool, ExtractTarget(args, printed), now, d);
  }

  lemma KindRefused(rules: DP.Rules, tool: string, target: string)
    requires DP.IsDeleteTool(tool) && ToLower(ResourceKindOf(target)) in rules.kinds
    ensures rules.Refuse(tool, target)
  {
  }

  lemma RefusedFirst(e: Config, records: Cooldowns, tool: string, target: string, now: int, d: Decision)
    requires EvaluationOf(e, records, tool, target, now, d)
    requires DP.Refuses(tool, target)
    ensures d.stage == Stage.DataProtection
  {
    assert ChecksOf(e, records, d.matched, tool, target, now).Stop(Stage.DataProtection);
  }

  // ---------------------------------------------------------------- exactly which deletions are refused

  /** The pattern is for this tool and for targets that start with a data spelling. */
  ghost predicate PrefixRule(pattern: (string, string), tool: string) {
    pattern.0 == tool && exists literal :: IsPrefixRule(pattern.1, literal)
  }

  predicate IsPrefixRule(pattern: string, literal: string) {
    LowerLiteral(literal) && DataSpelling(literal) && pattern == literal + "*"
  }

  /** The pattern's tool is another one. */
  predicate OtherTool(pattern: string, tool: string) {
    || (LowerLiteral(pattern) && LowerLiteral(tool) && pattern != tool)
    || (pattern != "" && tool != "" && pattern[0] != '*' && LowerRune(pattern[0]) != LowerRune(tool[0]))
  }

  lemma OtherToolMisses(pattern: string, tool: string)
    requires OtherTool(pattern, tool)
    ensures !Glob.EngineMatch(ToLower(pattern), ToLower(tool))
  {
    if LowerLiteral(pattern) && LowerLiteral(tool) && pattern != tool {
      LowerLiteralFacts(pattern);
      LowerLiteralFacts(tool);
      Glob.OnePart(pattern);
    } else if Glob.EngineMatch(ToLower(pattern), ToLower(tool)) {
      Glob.EngineMatchIsSound(ToLower(pattern), ToLower(tool));
    }
  }

  lemma PrefixRuleMatch(pattern: (string, string), tool: string, target: string)
    requires PrefixRule(pattern, tool) && DP.MatchesPattern(pattern, tool, target)
    ensures DataSpelling(ToLower(target))
  {
    var literal :| IsPrefixRule(pattern.1, literal);
    LowerLiteralFacts(literal);
    Glob.LiteralStarIsPrefix(literal, ToLower(target));
    SpellingExtends(literal, ToLower(target));
  }

  /** Every rule for the tool is such a prefix. */
  ghost predicate OnlyPrefixes(rules: DP.Rules, tool: string) {
    forall i :: 0 <= i < |rules.patterns| ==> PrefixRule(rules.patterns[i], tool) || OtherTool(rules.patterns[i].0, tool)
  }

  predicate SpellsSql(rules: DP.Rules, tool: string, target: string) {
    DP.HoldsOne(ToLower(tool + " " + target), rules.sql)
  }

  lemma RefusedIffBy(rules: DP.Rules, tool: string, target: string)
    requires DP.IsDeleteTool(tool) && OnlyPrefixes(rules, tool)
    requires DataSpelling(ToLower(target)) ==> rules.Refuse(tool, target)
    ensures rules.Refuse(tool, target) <==>
            || ToLower(ResourceKindOf(target)) in rules.kinds
            || DataSpelling(ToLower(target))
            || SpellsSql(rules, tool, target)
  {
    forall i | 0 <= i < |rules.patterns| && DP.MatchesPattern(rules.patterns[i], tool, target)
      ensures DataSpelling(ToLower(target))
    {
      if PrefixRule(rules.patterns[i], tool) {
        PrefixRuleMatch(rules.patterns[i], tool, target);
      } else {
        OtherToolMisses(rules.patterns[i].0, tool);
      }
    }
  }

  lemma PrefixRules()
    ensures IsPrefixRule("pvc*", "pvc") && IsPrefixRule("pv*", "pv")
    ensures IsPrefixRule("persistentvolumeclaim*", "persistentvolumeclaim")
    ensures IsPrefixRule("persistentvolume*", "persistentvolume")
    ensures IsPrefixRule("namespace*", "namespace") && IsPrefixRule("ns*", "ns") && IsPrefixRule("cluster*", "cluster")
  {
    assert "pvc" + "*" == "pvc*" && "pv" + "*" == "pv*" && "ns" + "*" == "ns*";
    assert "persistentvolumeclaim" + "*" == "persistentvolumeclaim*";
    assert "persistentvolume" + "*" == "persistentvolume*";
    assert "namespace" + "*" == "namespace*" && "cluster" + "*" == "cluster*";
    assert "pv" <= "pvc" && "persistentvolume" <= "persistentvolumeclaim";
  }

  lemma DeleteRulesArePrefixes()
    ensures OnlyPrefixes(DP.RULES, "kubectl.delete")
  {
    PrefixRules();
    assert LowerLiteral("kubectl.delete") && LowerLiteral("kubectl.patch");
  }

  lemma ContainsAt(text: string, sub: string, k: nat)
    requires LowerLiteral(text) && OccursAt(text, sub, k)
    ensures Contains(ToLower(text), sub)
  {
    LowerLiteralFacts(text);
  }

  lemma DeleteIsDeleteTool()
    ensures DP.IsDeleteTool("kubectl.delete")
  {
    var tool := "kubectl.delete";
    assert tool[8..14] == "delete";
    ContainsAt(tool, "delete", 8);
  }

  /**
   * A kubectl.delete is refused if and only if the kind read from its target is in the table, the
   * target starts like a data resource, or the call spells out SQL.
   */
  lemma DeleteRefusedIff(target: string)
    ensures DP.Refuses("kubectl.delete", target) <==>
            || ToLower(ResourceKindOf(target)) in DP.RULES.kinds
            || DataSpelling(ToLower(target))
            || SpellsSql(DP.RULES, "kubectl.delete", target)
  {
    DeleteRulesArePrefixes();
    DeleteIsDeleteTool();
    if DataSpelling(ToLower(target)) { DataSpellingRefused(target); }
    RefusedIffBy(DP.RULES, "kubectl.delete", target);
  }

  lemma PrefixInWord(literal: string, w: string, rest: string)
    requires ' ' !in literal && (rest == "" || rest[0] == ' ')
    ensures literal <= w + rest <==> literal <= w
  {
    assert rest != "" ==> (w + rest)[|w|] == ' ';
  }

  lemma SpellingInWord(w: string, rest: string)
    requires rest == "" || rest[0] == ' '
    ensures DataSpelling(w + rest) <==> DataSpelling(w)
  {
    PrefixInWord("pv", w, rest);
    PrefixInWord("persistentvolume", w, rest);
    PrefixInWord("namespace", w, rest);
    PrefixInWord("ns", w, rest);
    PrefixInWord("cluster", w, rest);
  }

  /** The same by the resource alone, when it is one word and nothing holds a slash. */
  lemma DeletedResourceRefusedIff(args: Args, printed: string)
    requires HasStr(args, "resource") && IsWord(args["resource"].s) && '/' !in args["resource"].s
    requires '/' !in StrOr(args, "namespace") && '/' !in StrOr(args, "name")
    ensures var lower, target := ToLower(args["resource"].s), ExtractTarget(args, printed);
            DP.Refuses("kubectl.delete", target) <==>
            lower in DP.RULES.kinds || DataSpelling(lower) || SpellsSql(DP.RULES, "kubectl.delete", target)
  {
    var resource, rest := args["resource"].s, AfterResource(args);
    assert ExtractTarget(args, printed) == resource + rest;
    ToLowerConcat(resource, rest);
    assert rest == "" || ToLower(rest)[0] == ' ';
    SpellingInWord(ToLower(resource), ToLower(rest));
    KindReadBack(args, printed);
    DeleteRefusedIff(ExtractTarget(args, printed));
  }

  /** The spellings of CNPG resources that no rule covers. */
  const MISSED: set<string> := {"backups.postgresql.cnpg.io", "scheduledbackups", "scheduledbackups.postgresql.cnpg.io"}

  lemma ClusterCovered(r: string)
    requires r in CLUSTER
    ensures DataSpelling(r) && r !in MISSED
  {
    NamedSpellings(r);
    assert "cluster" <= r;
  }

  lemma BackupsCovered(r: string)
    requires r in CNPG_BACKUPS
    ensures r in DP.PROTECTED_KINDS || DataSpelling(r) <==> r !in MISSED
  {
    NotSpelled(r);
    if r == "backups.postgresql.cnpg.io" {
      assert r !in DP.PROTECTED_KINDS;
    } else if r == "scheduledbackups" {
      assert r !in DP.PROTECTED_KINDS;
    } else if r == "scheduledbackups.postgresql.cnpg.io" {
      assert r !in DP.PROTECTED_KINDS;
    }
  }

  lemma NotSpelled(r: string)
    requires r != "" && r[0] != 'p' && r[0] != 'n' && r[0] != 'c'
    ensures !DataSpelling(r)
  {
    assert "pv"[0] == "persistentvolume"[0] == 'p' && "namespace"[0] == "ns"[0] == 'n' && "cluster"[0] == 'c';
  }

  lemma LowerWord(s: string)
    requires IsWord(ToLower(s)) && '/' !in ToLower(s)
    ensures IsWord(s) && '/' !in s
  {
    var lower := ToLower(s);
    forall i | 0 <= i < |s| ensures !IsSpace(s[i]) && s[i] != '/' {
      assert lower[i] == LowerRune(s[i]) && lower[i] in lower;
    }
  }

  lemma CnpgWord(r: string)
    requires r in CLUSTER || r in CNPG_BACKUPS
    ensures IsWord(r) && '/' !in r
  {
    CnpgDotted(r);
    DottedIsWord(r);
  }

  predicate Dotted(r: string) { r != "" && forall i :: 0 <= i < |r| ==> 'a' <= r[i] <= 'z' || r[i] == '.' }

  lemma CnpgDotted(r: string)
    requires r in CLUSTER || r in CNPG_BACKUPS
    ensures Dotted(r)
  {
  }

  lemma DottedIsWord(r: string)
    requires Dotted(r)
    ensures IsWord(r) && '/' !in r
  {
  }

  /** Of the CNPG resources, kubectl.delete is refused for exactly the spellings that are not missed. */
  lemma CnpgDeleteRefusedIff(args: Args, printed: string)
    requires HasStr(args, "resource") && ResourceToGVR(args["resource"].s).group == CNPG_GROUP
    requires '/' !in StrOr(args, "namespace") && '/' !in StrOr(args, "name")
    ensures var target := ExtractTarget(args, printed);
            DP.Refuses("kubectl.delete", target) <==>
            ToLower(args["resource"].s) !in MISSED || SpellsSql(DP.RULES, "kubectl.delete", target)
  {
    var resource := args["resource"].s;
    CnpgSpellings(resource);
    CnpgWord(ToLower(resource));
    LowerWord(resource);
    DeletedResourceRefusedIff(args, printed);
    if ToLower(resource) in CLUSTER { ClusterCovered(ToLower(resource)); } else { BackupsCovered(ToLower(resource)); }
  }

  /**
   * A call of the destructive tier into a namespace that holds declared data is refused outright;
   * the resource may hold slashes and spaces, and the name anything.
   */
  lemma DataNamespaceNeverHarmed(
    e: Config, dr: Option<DataResourcesSpec>, r: DataRef,
    records: Cooldowns, tool: string, args: Args, printed: string, now: int, d: Decision)
    requires NamesNamespace(args)
    requires e.dataIndex.Some? && IndexOf(e.dataIndex.value, dr)
    requires Declares(dr, r) && r.namespace == StrOr(args, "namespace")
    requires EvaluationOf(e, records, tool, ExtractTarget(args, printed), now, d)
    ensures FinalTier(e, d.matched, tool, ExtractTarget(args, printed)) == DestructiveMutation ==>
              DataStage(d.stage) && !d.allowed && !d.needsApproval && d.status == Blocked
    ensures d.tier == DestructiveMutation ==> !d.allowed && !d.needsApproval && d.status == Blocked
  {
    NamespaceReadBack(args, printed);
    ImpactStops(e, records, tool, ExtractTarget(args, printed), now, d);
  }

  /** Any mutation that names a declared data resource is refused outright, whatever its tier. */
  lemma DataResourceNeverMutated(
    e: Config, dr: Option<DataResourcesSpec>, records: Cooldowns, tool: string, args: Args, printed: string,
    now: int, d: Decision)
    requires PlainArgs(args) && StrOr(args, "namespace") != "" && StrOr(args, "name") != ""
    requires e.dataIndex.Some? && IndexOf(e.dataIndex.value, dr)
    requires Declares(dr, DataRef(args["resource"].s, StrOr(args, "namespace"), StrOr(args, "name")))
    requires EvaluationOf(e, records, tool, ExtractTarget(args, printed), now, d)
    requires FinalTier(e, d.matched, tool, ExtractTarget(args, printed)) != Read
    ensures DataStage(d.stage) && !d.allowed && !d.needsApproval && d.status == Blocked
  {
    TargetRoundTrip(args, printed);
    var r := DataRef(args["resource"].s, StrOr(args, "namespace"), StrOr(args, "name"));
    assert JoinKey(r.kind, r.namespace, r.name) in e.dataIndex.value.dataResourceKeys;
    ImpactStops(e, records, tool, ExtractTarget(args, printed), now, d);
  }

  lemma ImpactStops(e: Config, records: Cooldowns, tool: string, target: string, now: int, d: Decision)
    requires EvaluationOf(e, records, tool, target, now, d)
    requires e.dataIndex.Some?
    ensures DP.Impacts(target, FinalTier(e, d.matched, tool, target), e.dataIndex.value) ==>
              DataStage(d.stage) && !d.allowed && !d.needsApproval && d.status == Blocked
    ensures DataStage(d.stage) ==> !d.allowed && !d.needsApproval && d.status == Blocked
    ensures !DataStage(d.stage) ==> d.tier == FinalTier(e, d.matched, tool, target)
  {
    if DP.Impacts(target, FinalTier(e, d.matched, tool, target), e.dataIndex.value) {
      assert ChecksOf(e, records, d.matched, tool, target, now).Stop(DataImpact);
    }
  }

  /** Declared buckets influence no decision. */
  lemma BucketsDecideNothing(
    e: Config, idx: DataIndex, buckets: set<string>, records: Cooldowns, tool: string, target: string, now: int, d: Decision)
    requires e.dataIndex == Some(idx)
    ensures EvaluationOf(e, records, tool, target, now, d) <==>
            EvaluationOf(e.(dataIndex := Some(idx.(objectStorageNames := buckets))), records, tool, target, now, d)
  {
    var e' := e.(dataIndex := Some(idx.(objectStorageNames := buckets)));
    assert FinalTier(e', d.matched, tool, target) == FinalTier(e, d.matched, tool, target);
    assert ChecksOf(e', records, d.matched, tool, target, now) == ChecksOf(e, records, d.matched, tool, target, now);
    SameSheet(e, e', tool, target, d.matched);
  }
}
