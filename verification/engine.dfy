/**
 * The Action Sheet engine: the layered decision that every tool call passes before it runs.
 * Map iteration order, configurable protection classes, tool classification and duration
 * parsing are arbitrary.
 */
module Engine {
  import opened GoStrings
  import opened Types
  import opened DataResources
  import opened Targets
  import DP = DataProtection
  import Glob

  datatype Action = Action(id: string, tool: string, targetPattern: string, tier: string, cooldown: string)

  datatype Guardrails = Guardrails(
    autonomy: Autonomy,
    approvalMode: string,
    allowedActions: seq<string>,
    deniedActions: seq<string>)

  /** What a tool says about a call; NotClassifiable also stands for an unknown tool. */
  datatype Classification = NotClassifiable | Refused | Classified(tier: Tier)

  datatype Config = Config(
    agentName: string,
    guardrails: Guardrails,
    actionRegistry: map<string, Action>,
    dataIndex: Option<DataIndex>,
    protects: (string, string) -> bool,
    classify: (string, string) -> Classification,
    parseDuration: string -> Option<int>)

  /** Execution times by cooldown key. */
  type Cooldowns = map<string, int>

  /** The checks in the order the engine applies them. */
  datatype Stage =
    DataProtection | ProtectionClass | ToolClassification | DataImpact | AutonomyCheck |
    DenyList | AllowList | Cooldown | Undeclared | Passed

  function Rank(s: Stage): nat {
    match s
    case DataProtection => 0
    case ProtectionClass => 1
    case ToolClassification => 2
    case DataImpact => 3
    case AutonomyCheck => 4
    case DenyList => 5
    case AllowList => 6
    case Cooldown => 7
    case Undeclared => 8
    case Passed => 9
  }

  datatype Decision = Decision(
    allowed: bool,
    needsApproval: bool,
    status: ActionStatus,
    tier: Tier,
    matched: Option<Action>,
    stage: Stage)

  // ---------------------------------------------------------------- the individual checks

  predicate MatchesAction(a: Action, tool: string, target: string) {
    && (a.tool == tool || Glob.EngineMatch(a.tool, tool))
    && (a.targetPattern != "" ==> Glob.EngineMatch(a.targetPattern, target))
  }

  function ClassifyTier(tier: string): Tier {
    if tier == "read" then Read
    else if tier == "service-mutation" then ServiceMutation
    else if tier == "destructive-mutation" then DestructiveMutation
    else if tier == "data-mutation" then DataMutation
    else DestructiveMutation
  }

  predicate ContainsAny(s: string, needles: seq<string>) {
    exists i :: 0 <= i < |needles| && Contains(s, needles[i])
  }

  const READ_WORDS: seq<string> :=
    ["get", "list", "describe", "logs", "read", "fetch", "check", "status", "analyze"]
  const DESTRUCTIVE_WORDS: seq<string> := ["delete", "destroy", "remove", "purge", "drain", "cordon"]

  function ClassifyFromToolName(tool: string): Tier {
    var lower := ToLower(tool);
    if ContainsAny(lower, READ_WORDS) then Read
    else if ContainsAny(lower, DESTRUCTIVE_WORDS) then DestructiveMutation
    else ServiceMutation
  }

  function AutonomyRank(level: Autonomy): nat {
    match level
    case Observe => 0
    case Recommend => 1
    case AutomateSafe => 2
    case AutomateDestructive => 3
    case UnknownAutonomy => 0
  }

  function RequiredRank(tier: Tier): nat {
    match tier
    case Read => 0
    case ServiceMutation => 2
    case DestructiveMutation => 3
    case DataMutation => 4  // above every level: no autonomy unlocks data
  }

  predicate Suffices(level: Autonomy, tier: Tier) {
    tier != DataMutation && AutonomyRank(level) >= RequiredRank(tier)
  }

  predicate Listed(tool: string, target: string, patterns: seq<string>) {
    var combined := if target != "" then tool + " " + target else tool;
    exists i :: 0 <= i < |patterns| && (Glob.EngineMatch(patterns[i], combined) || Glob.EngineMatch(patterns[i], tool))
  }

  function CooldownKey(agent: string, actionID: string, target: string): string {
    agent + "/" + actionID + "/" + target
  }

  predicate InCooldown(e: Config, records: Cooldowns, a: Action, target: string, now: int) {
    var key := CooldownKey(e.agentName, a.id, target);
    && a.cooldown != ""
    && e.parseDuration(a.cooldown).Some?
    && key in records
    && now - records[key] < e.parseDuration(a.cooldown).value
  }

  // ---------------------------------------------------------------- the decision

  /** Any Action Sheet entry that matches may be the one map iteration finds; None only when none does. */
  ghost predicate MatchChoice(e: Config, tool: string, target: string, m: Option<Action>) {
    match m
    case Some(a) => exists id :: id in e.actionRegistry && e.actionRegistry[id] == a && MatchesAction(a, tool, target)
    case None => forall id :: id in e.actionRegistry ==> !MatchesAction(e.actionRegistry[id], tool, target)
  }

  function SheetTier(m: Option<Action>, tool: string): Tier {
    if m.Some? then ClassifyTier(m.value.tier) else ClassifyFromToolName(tool)
  }

  /** The tier after the tool's own classification. */
  function FinalTier(e: Config, m: Option<Action>, tool: string, target: string): Tier {
    if e.classify(tool, target).Classified? then e.classify(tool, target).tier else SheetTier(m, tool)
  }

  predicate ApprovalOn(g: Guardrails) { g.approvalMode != "" && g.approvalMode != "none" }

  /** What each check, taken alone, says of one call: true when it refuses. */
  datatype Checks = Checks(dataProtection: bool, protectionClass: bool, toolClassification: bool, dataImpact: bool,
                           autonomy: bool, denyList: bool, allowList: bool, cooldown: bool, undeclared: bool)
  {
    predicate Stop(s: Stage) {
      match s
      case DataProtection => dataProtection
      case ProtectionClass => protectionClass
      case ToolClassification => toolClassification
      case DataImpact => dataImpact
      case AutonomyCheck => autonomy
      case DenyList => denyList
      case AllowList => allowList
      case Cooldown => cooldown
      case Undeclared => undeclared
      case Passed => true
    }

    /** No check before `s` refuses. */
    predicate ClearBefore(s: Stage) {
      && (Rank(s) > 0 ==> !dataProtection)
      && (Rank(s) > 1 ==> !protectionClass)
      && (Rank(s) > 2 ==> !toolClassification)
      && (Rank(s) > 3 ==> !dataImpact)
      && (Rank(s) > 4 ==> !autonomy)
      && (Rank(s) > 5 ==> !denyList)
      && (Rank(s) > 6 ==> !allowList)
      && (Rank(s) > 7 ==> !cooldown)
      && (Rank(s) > 8 ==> !undeclared)
    }

    /** The earliest check that refuses. */
    predicate First(s: Stage) { Stop(s) && ClearBefore(s) }
  }

  function ChecksOf(e: Config, records: Cooldowns, m: Option<Action>, tool: string, target: string, now: int): Checks {
    var tier := FinalTier(e, m, tool, target);
    Checks(
      DP.Refuses(tool, target),
      e.protects(tool, target),
      e.classify(tool, target).Refused?,
      e.dataIndex.Some? && DP.Impacts(target, tier, e.dataIndex.value),
      !Suffices(e.guardrails.autonomy, tier),
      Listed(tool, target, e.guardrails.deniedActions),
      tier != Read && e.guardrails.allowedActions != [] && !Listed(tool, target, e.guardrails.allowedActions),
      m.Some? && InCooldown(e, records, m.value, target, now),
      m.None? && tier != Read)
  }

  /** The data layers: protection rules, protection classes, tool classification, data resources. */
  predicate DataStage(s: Stage) { Rank(s) <= Rank(DataImpact) }

  /** The call passes all the data layers. */
  predicate DataClear(c: Checks) {
    !c.dataProtection && !c.protectionClass && !c.toolClassification && !c.dataImpact
  }

  function StatusAt(s: Stage, approvalOn: bool): ActionStatus {
    match s
    case Passed => Executed
    case Cooldown => Skipped
    case AutonomyCheck => if approvalOn then PendingApproval else Blocked
    case _ => Blocked
  }

  function TierAt(e: Config, m: Option<Action>, tool: string, target: string, s: Stage): Tier {
    match s
    case DataProtection => DataMutation
    case ToolClassification => DataMutation
    case ProtectionClass => SheetTier(m, tool)
    case _ => FinalTier(e, m, tool, target)
  }

  /** `d` is a decision the engine may take: some matching entry, and the earliest check that refuses. */
  ghost predicate EvaluationOf(e: Config, records: Cooldowns, tool: string, target: string, now: int, d: Decision) {
    && MatchChoice(e, tool, target, d.matched)
    && ChecksOf(e, records, d.matched, tool, target, now).First(d.stage)
    && d.allowed == d.stage.Passed?
    && d.needsApproval == (d.stage.AutonomyCheck? && ApprovalOn(e.guardrails))
    && d.status == StatusAt(d.stage, ApprovalOn(e.guardrails))
    && d.tier == TierAt(e, d.matched, tool, target, d.stage)
  }

  // ---------------------------------------------------------------- the engine object

  class ActionEngine {
    const config: Config
    var cooldowns: Cooldowns

    constructor (config: Config)
      ensures this.config == config && cooldowns == map[]
    {
      this.config := config;
      cooldowns := map[];
    }

    /** matchAction: iterate over the registry in whatever order the map yields. */
    method MatchAction(tool: string, target: string) returns (m: Option<Action>)
      ensures MatchChoice(config, tool, target, m)
    {
      var ids := config.actionRegistry.Keys;
      while ids != {}
        invariant ids <= config.actionRegistry.Keys
        invariant forall id :: id in config.actionRegistry && id !in ids ==>
                    !MatchesAction(config.actionRegistry[id], tool, target)
      {
        var id :| id in ids;
        if MatchesAction(config.actionRegistry[id], tool, target) {
          return Some(config.actionRegistry[id]);
        }
        ids := ids - {id};
      }
      return None;
    }

    method CheckList(tool: string, target: string, patterns: seq<string>) returns (found: bool)
      ensures found == Listed(tool, target, patterns)
    {
      var combined := if target != "" then tool + " " + target else tool;
      for i := 0 to |patterns|
        invariant forall j :: 0 <= j < i ==>
                    !Glob.EngineMatch(patterns[j], combined) && !Glob.EngineMatch(patterns[j], tool)
      {
        var whole := Glob.MatchGlob(patterns[i], combined);
        var bare := Glob.MatchGlob(patterns[i], tool);
        if whole || bare {
          return true;
        }
      }
      return false;
    }

    /** Steps 3 to 4: the layers that protect data. Passed means that none of them stopped the call. */
    method DataLayers(m: Option<Action>, tool: string, target: string, ghost c: Checks, ghost now: int)
      returns (s: Stage, tier: Tier)
      requires c == ChecksOf(config, cooldowns, m, tool, target, now)
      ensures s == Passed || (DataStage(s) && c.First(s))
      ensures s == Passed ==> DataClear(c)
      ensures tier == TierAt(config, m, tool, target, s)
    {
      tier := SheetTier(m, tool);
      var refused := DP.CheckDataProtection(tool, target);
      if refused {
        return DataProtection, DataMutation;
      }
      if config.protects(tool, target) {
        return ProtectionClass, tier;
      }
      match config.classify(tool, target) {
        case Refused => return ToolClassification, DataMutation;
        case Classified(own) => tier := own;
        case NotClassifiable =>
      }
      if config.dataIndex.Some? && DP.Impacts(target, tier, config.dataIndex.value) {
        return DataImpact, tier;
      }
      return Passed, tier;
    }

    /** Steps 5 to 9: autonomy, deny list, allow list, cooldown, undeclared mutation. */
    method PolicyLayers(m: Option<Action>, tool: string, target: string, now: int, tier: Tier, ghost c: Checks)
      returns (s: Stage)
      requires c == ChecksOf(config, cooldowns, m, tool, target, now) && DataClear(c)
      requires tier == FinalTier(config, m, tool, target)
      ensures !DataStage(s) && c.First(s)
    {
      if !Suffices(config.guardrails.autonomy, tier) {
        return AutonomyCheck;
      }
      var denied := CheckList(tool, target, config.guardrails.deniedActions);
      if denied {
        return DenyList;
      }
      if tier != Read && config.guardrails.allowedActions != [] {
        var listed := CheckList(tool, target, config.guardrails.allowedActions);
        if !listed {
          return AllowList;
        }
      }
      if m.Some? && InCooldown(config, cooldowns, m.value, target, now) {
        return Cooldown;
      }
      if m.None? && tier != Read {
        return Undeclared;
      }
      return Passed;
    }

    method Evaluate(tool: string, target: string, now: int) returns (d: Decision)
      ensures EvaluationOf(config, cooldowns, tool, target, now, d)
    {
      var m := MatchAction(tool, target);
      ghost var c := ChecksOf(config, cooldowns, m, tool, target, now);
      var s, tier := DataLayers(m, tool, target, c, now);
      if s == Passed {
        s := PolicyLayers(m, tool, target, now, tier, c);
      }
      var approvalOn := ApprovalOn(config.guardrails);
      d := Decision(s == Passed, s == AutonomyCheck && approvalOn, StatusAt(s, approvalOn), tier, m, s);
    }

    method RecordExecution(actionID: string, target: string, now: int)
      modifies this`cooldowns
      ensures cooldowns == old(cooldowns)[CooldownKey(config.agentName, actionID, target) := now]
    {
      cooldowns := cooldowns[CooldownKey(config.agentName, actionID, target) := now];
    }
  }

  // ---------------------------------------------------------------- what a decision guarantees

  /** An allowed call passed every layer. */
  ghost predicate Cleared(e: Config, records: Cooldowns, tool: string, target: string, now: int, d: Decision) {
    && !DP.Refuses(tool, target)
    && !e.protects(tool, target)
    && !e.classify(tool, target).Refused?
    && (e.dataIndex.Some? ==> !DP.Impacts(target, d.tier, e.dataIndex.value))
    && d.tier != DataMutation
    && AutonomyRank(e.guardrails.autonomy) >= RequiredRank(d.tier)
    && !Listed(tool, target, e.guardrails.deniedActions)
    && (d.tier != Read ==>
          && d.matched.Some?
          && (e.guardrails.allowedActions == [] || Listed(tool, target, e.guardrails.allowedActions)))
    && (d.matched.Some? ==>
          && (exists id :: id in e.actionRegistry && e.actionRegistry[id] == d.matched.value)
          && MatchesAction(d.matched.value, tool, target)
          && !InCooldown(e, records, d.matched.value, target, now))
  }

  lemma AllowedMeansCleared(e: Config, records: Cooldowns, tool: string, target: string, now: int, d: Decision)
    requires EvaluationOf(e, records, tool, target, now, d)
    requires d.allowed
    ensures Cleared(e, records, tool, target, now, d)
  {
    var c := ChecksOf(e, records, d.matched, tool, target, now);
    assert DataClear(c) && !c.autonomy && !c.denyList && !c.allowList && !c.cooldown && !c.undeclared by {
      assert c.First(Passed);
    }
  }

  /** ... and a call that clears every layer is allowed. */
  lemma ClearedMeansAllowed(e: Config, records: Cooldowns, tool: string, target: string, now: int, d: Decision)
    requires EvaluationOf(e, records, tool, target, now, d)
    requires Cleared(e, records, tool, target, now, d)
    ensures d.allowed
  {
  }

  /**
   * Approval is requested exactly for the calls that pass the data layers and lack the autonomy:
   * whether the call is denied, listed, cooling down or declared is not asked before.
   */
  lemma ApprovalRequestedIff(e: Config, records: Cooldowns, tool: string, target: string, now: int, d: Decision)
    requires EvaluationOf(e, records, tool, target, now, d)
    ensures d.needsApproval <==>
            && ApprovalOn(e.guardrails)
            && DataClear(ChecksOf(e, records, d.matched, tool, target, now))
            && !Unlocks(e.guardrails.autonomy, FinalTier(e, d.matched, tool, target))
    ensures d.needsApproval ==> !d.allowed && d.tier == FinalTier(e, d.matched, tool, target)
  {
    AutonomyLadder(e.guardrails.autonomy, FinalTier(e, d.matched, tool, target));
  }

  /** Two approval modes that are both on lead to the same decisions. */
  lemma ModesAlike(
    e: Config, mode: string, records: Cooldowns, tool: string, target: string, now: int, d: Decision)
    requires ApprovalOn(e.guardrails) && ApprovalOn(e.guardrails.(approvalMode := mode))
    ensures EvaluationOf(e, records, tool, target, now, d) <==>
            EvaluationOf(e.(guardrails := e.guardrails.(approvalMode := mode)), records, tool, target, now, d)
  {
    var e' := e.(guardrails := e.guardrails.(approvalMode := mode));
    assert FinalTier(e', d.matched, tool, target) == FinalTier(e, d.matched, tool, target);
    assert ChecksOf(e', records, d.matched, tool, target, now) == ChecksOf(e, records, d.matched, tool, target, now);
    SameSheet(e, e', tool, target, d.matched);
  }

  lemma SameSheet(e: Config, e': Config, tool: string, target: string, m: Option<Action>)
    requires e'.actionRegistry == e.actionRegistry
    ensures MatchChoice(e', tool, target, m) <==> MatchChoice(e, tool, target, m)
  {
  }

  /** Which autonomy level unlocks which tier. */
  predicate Unlocks(level: Autonomy, tier: Tier) {
    match tier
    case Read => true
    case ServiceMutation => level == AutomateSafe || level == AutomateDestructive
    case DestructiveMutation => level == AutomateDestructive
    case DataMutation => false
  }

  lemma AutonomyLadder(level: Autonomy, tier: Tier)
    ensures Suffices(level, tier) <==> Unlocks(level, tier)
  {
  }
}
