/**
 * What the engine's checks say, in terms of strings, patterns and tables alone: a second definition
 * of the decision, with which the layered one is proved to agree.
 */
module Reference {
  import opened GoStrings
  import opened Types
  import opened DataResources
  import opened Targets
  import opened Engine
  import DP = DataProtection
  import Glob

  /** The entry's tool is the call's or a pattern for it, and so is its target pattern if it has one. */
  predicate Covers(a: Action, tool: string, target: string) {
    && (a.tool == tool || Glob.EngineMatch(a.tool, tool))
    && (a.targetPattern == "" || Glob.EngineMatch(a.targetPattern, target))
  }

  /** The matched entry covers the call; with none, no entry does. */
  ghost predicate MatchedRight(e: Config, tool: string, target: string, m: Option<Action>) {
    if m.Some? then Covers(m.value, tool, target) && exists id :: id in e.actionRegistry && e.actionRegistry[id] == m.value
    else forall id :: id in e.actionRegistry ==> !Covers(e.actionRegistry[id], tool, target)
  }

  lemma MatchIsRight(e: Config, tool: string, target: string, m: Option<Action>)
    ensures MatchChoice(e, tool, target, m) <==> MatchedRight(e, tool, target, m)
  {
    assert forall a :: MatchesAction(a, tool, target) <==> Covers(a, tool, target);
  }

  /** The pattern names the tool, or the tool together with its target. */
  predicate Names(pattern: string, tool: string, target: string) {
    Glob.EngineMatch(pattern, tool) || (target != "" && Glob.EngineMatch(pattern, tool + " " + target))
  }

  predicate Named(patterns: seq<string>, tool: string, target: string) {
    exists i :: 0 <= i < |patterns| && Names(patterns[i], tool, target)
  }

  lemma ListedIsNamed(patterns: seq<string>, tool: string, target: string)
    ensures Listed(tool, target, patterns) <==> Named(patterns, tool, target)
  {
    forall i | 0 <= i < |patterns|
      ensures Names(patterns[i], tool, target) <==>
              Glob.EngineMatch(patterns[i], if target != "" then tool + " " + target else tool) ||
              Glob.EngineMatch(patterns[i], tool)
    {
    }
  }

  predicate SaysRead(lower: string) {
    || Contains(lower, "get") || Contains(lower, "list") || Contains(lower, "describe") || Contains(lower, "logs")
    || Contains(lower, "read") || Contains(lower, "fetch") || Contains(lower, "check") || Contains(lower, "status")
    || Contains(lower, "analyze")
  }

  predicate SaysDestroy(lower: string) {
    || Contains(lower, "delete") || Contains(lower, "destroy") || Contains(lower, "remove")
    || Contains(lower, "purge") || Contains(lower, "drain") || Contains(lower, "cordon")
  }

  /** The tier of a call: the tool's own, or the matched entry's, or what its name says. */
  function TierOf(e: Config, m: Option<Action>, tool: string, target: string): Tier {
    if e.classify(tool, target).Classified? then e.classify(tool, target).tier else SheetTierOf(m, tool)
  }

  function SheetTierOf(m: Option<Action>, tool: string): Tier {
    if m.Some? then
      if m.value.tier == "read" then Read
      else if m.value.tier == "service-mutation" then ServiceMutation
      else if m.value.tier == "data-mutation" then DataMutation
      else DestructiveMutation
    else if SaysRead(ToLower(tool)) then Read
    else if SaysDestroy(ToLower(tool)) then DestructiveMutation
    else ServiceMutation
  }

  lemma ReadWords(lower: string)
    ensures ContainsAny(lower, READ_WORDS) <==> SaysRead(lower)
  {
    assert READ_WORDS[0] == "get" && READ_WORDS[1] == "list" && READ_WORDS[2] == "describe" && READ_WORDS[3] == "logs";
    assert READ_WORDS[4] == "read" && READ_WORDS[5] == "fetch" && READ_WORDS[6] == "check" && READ_WORDS[7] == "status";
    assert READ_WORDS[8] == "analyze" && |READ_WORDS| == 9;
  }

  lemma DestructiveWords(lower: string)
    ensures ContainsAny(lower, DESTRUCTIVE_WORDS) <==> SaysDestroy(lower)
  {
    assert DESTRUCTIVE_WORDS[0] == "delete" && DESTRUCTIVE_WORDS[1] == "destroy" && DESTRUCTIVE_WORDS[2] == "remove";
    assert DESTRUCTIVE_WORDS[3] == "purge" && DESTRUCTIVE_WORDS[4] == "drain" && DESTRUCTIVE_WORDS[5] == "cordon";
    assert |DESTRUCTIVE_WORDS| == 6;
  }

  lemma TierIsTierOf(e: Config, m: Option<Action>, tool: string, target: string)
    ensures SheetTier(m, tool) == SheetTierOf(m, tool) && FinalTier(e, m, tool, target) == TierOf(e, m, tool, target)
  {
    ReadWords(ToLower(tool));
    DestructiveWords(ToLower(tool));
  }

  /** A mutation that names a declared resource, or a destructive one into a namespace with data. */
  predicate Touches(target: string, tier: Tier, idx: DataIndex) {
    && tier != Read && NamespaceOf(target) != ""
    && (|| (tier == DestructiveMutation && NamespaceOf(target) in idx.namespacesWithData)
        || (&& ResourceKindOf(target) != "" && ResourceNameOf(target) != ""
            && ResourceKindOf(target) + "/" + NamespaceOf(target) + "/" + ResourceNameOf(target) in idx.dataResourceKeys))
  }

  lemma ImpactIsTouch(target: string, tier: Tier, idx: DataIndex)
    ensures DP.Impacts(target, tier, idx) <==> Touches(target, tier, idx)
  {
  }

  predicate CoolingDown(e: Config, records: Cooldowns, a: Action, target: string, now: int) {
    var key := e.agentName + "/" + a.id + "/" + target;
    && a.cooldown != "" && e.parseDuration(a.cooldown).Some? && key in records
    && now - records[key] < e.parseDuration(a.cooldown).value
  }

  /** Everything that must hold for a call to run on its own. */
  predicate Permitted(e: Config, records: Cooldowns, tool: string, target: string, now: int, m: Option<Action>) {
    var tier := TierOf(e, m, tool, target);
    && !DP.Refuses(tool, target)
    && !e.protects(tool, target)
    && !e.classify(tool, target).Refused?
    && (e.dataIndex.Some? ==> !Touches(target, tier, e.dataIndex.value))
    && Unlocks(e.guardrails.autonomy, tier)
    && !Named(e.guardrails.deniedActions, tool, target)
    && (tier != Read ==>
          m.Some? && (e.guardrails.allowedActions == [] || Named(e.guardrails.allowedActions, tool, target)))
    && (m.Some? ==> !CoolingDown(e, records, m.value, target, now))
  }

  /** What each check says, one by one. */
  lemma ChecksAre(e: Config, records: Cooldowns, m: Option<Action>, tool: string, target: string, now: int)
    ensures var c, tier := ChecksOf(e, records, m, tool, target, now), TierOf(e, m, tool, target);
            && c.dataProtection == DP.Refuses(tool, target)
            && c.protectionClass == e.protects(tool, target)
            && c.toolClassification == e.classify(tool, target).Refused?
            && c.dataImpact == (e.dataIndex.Some? && Touches(target, tier, e.dataIndex.value))
            && c.autonomy == !Unlocks(e.guardrails.autonomy, tier)
            && c.denyList == Named(e.guardrails.deniedActions, tool, target)
            && c.allowList == (tier != Read && e.guardrails.allowedActions != [] &&
                               !Named(e.guardrails.allowedActions, tool, target))
            && c.cooldown == (m.Some? && CoolingDown(e, records, m.value, target, now))
            && c.undeclared == (m.None? && tier != Read)
  {
    TierIsTierOf(e, m, tool, target);
    AutonomyLadder(e.guardrails.autonomy, TierOf(e, m, tool, target));
    ListedIsNamed(e.guardrails.deniedActions, tool, target);
    ListedIsNamed(e.guardrails.allowedActions, tool, target);
    if e.dataIndex.Some? { ImpactIsTouch(target, TierOf(e, m, tool, target), e.dataIndex.value); }
  }

  /** The engine allows exactly the permitted calls, and matches only entries that cover them. */
  lemma AllowedIffPermitted(e: Config, records: Cooldowns, tool: string, target: string, now: int, d: Decision)
    requires EvaluationOf(e, records, tool, target, now, d)
    ensures d.allowed <==> Permitted(e, records, tool, target, now, d.matched)
    ensures MatchedRight(e, tool, target, d.matched)
  {
    MatchIsRight(e, tool, target, d.matched);
    ChecksAre(e, records, d.matched, tool, target, now);
    var c := ChecksOf(e, records, d.matched, tool, target, now);
    AllowedIffClear(c, d.stage);
  }

  lemma AllowedIffClear(c: Checks, s: Stage)
    requires c.First(s)
    ensures s == Passed <==>
            DataClear(c) && !c.autonomy && !c.denyList && !c.allowList && !c.cooldown && !c.undeclared
  {
  }

  /** The tier that is recorded. */
  lemma TierRecorded(e: Config, records: Cooldowns, tool: string, target: string, now: int, d: Decision)
    requires EvaluationOf(e, records, tool, target, now, d)
    ensures d.tier ==
            if DP.Refuses(tool, target) then DataMutation
            else if e.protects(tool, target) then SheetTierOf(d.matched, tool)
            else if e.classify(tool, target).Refused? then DataMutation
            else TierOf(e, d.matched, tool, target)
  {
    ChecksAre(e, records, d.matched, tool, target, now);
    TierIsTierOf(e, d.matched, tool, target);
    FirstDataStage(ChecksOf(e, records, d.matched, tool, target, now), d.stage);
  }

  lemma FirstDataStage(c: Checks, s: Stage)
    requires c.First(s)
    ensures s == DataProtection <==> c.dataProtection
    ensures s == ProtectionClass <==> !c.dataProtection && c.protectionClass
    ensures s == ToolClassification <==> !c.dataProtection && !c.protectionClass && c.toolClassification
  {
  }
}
