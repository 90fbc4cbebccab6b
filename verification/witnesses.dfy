/** Runs that show what the guarantees do not promise. */
module Witnesses {
  import opened GoStrings
  import opened Types
  import opened Targets
  import opened Conversation
  import opened Engine
  import opened Runner
  import opened Kubectl
  import Protection
  import DP = DataProtection
  import Glob

  // ---------------------------------------------------------------- a call that no data rule knows

  /** The pattern starts with two literal characters. */
  predicate LongLiteral(pattern: string) { |pattern| >= 2 && pattern[0] != '*' && pattern[1] != '*' }

  lemma ShortTextMisses(pattern: string, text: string)
    requires LongLiteral(pattern) && |text| == 1
    ensures !Glob.EngineMatch(ToLower(pattern), text)
  {
    var lower := ToLower(pattern);
    assert lower[0] != '*' && lower[1..][0] != '*' && text[1..] == "";
    if Glob.EngineMatch(lower, text) { Glob.EngineMatchIsSound(lower, text); }
  }

  lemma TooShort(text: string, sub: string)
    requires |text| < |sub|
    ensures !Contains(text, sub)
  {
  }

  lemma NoDeleteTool(tool: string)
    requires |tool| == 1
    ensures !DP.IsDeleteTool(tool)
  {
    var lower := ToLower(tool);
    TooShort(lower, "delete");
    TooShort(lower, "remove");
    TooShort(lower, "destroy");
    TooShort(lower, "purge");
  }

  lemma ShortCallPasses(rules: DP.Rules, tool: string, target: string)
    requires |tool| == |target| == 1
    requires forall i :: 0 <= i < |rules.patterns| ==> LongLiteral(rules.patterns[i].0)
    requires forall i :: 0 <= i < |rules.sql| ==> |rules.sql[i]| > 3
    ensures !rules.Refuse(tool, target)
  {
    forall i | 0 <= i < |rules.patterns| ensures !DP.MatchesPattern(rules.patterns[i], tool, target) {
      ShortTextMisses(rules.patterns[i].0, ToLower(tool));
    }
    forall i | 0 <= i < |rules.sql| ensures !Contains(ToLower(tool + " " + target), rules.sql[i]) {
      TooShort(ToLower(tool + " " + target), rules.sql[i]);
    }
    NoDeleteTool(tool);
  }

  lemma NotRefused()
    ensures !DP.Refuses("x", "y") && !DP.Refuses("z", "y")
  {
    assert forall i :: 0 <= i < |DP.RULES.patterns| ==> LongLiteral(DP.RULES.patterns[i].0);
    assert forall i :: 0 <= i < |DP.RULES.sql| ==> |DP.RULES.sql[i]| > 3;
    ShortCallPasses(DP.RULES, "x", "y");
    ShortCallPasses(DP.RULES, "z", "y");
  }

  lemma StarMatches(text: string)
    ensures Glob.EngineMatch("*", text)
  {
    Glob.LiteralStarIsPrefix("", text);
    assert "" + "*" == "*";
  }

  // ---------------------------------------------------------------- denied, undeclared, and run

  /** An agent that may only observe, with approval on, everything denied and an empty Action Sheet. */
  function Watcher(): Config {
    Config("agent", Guardrails(Observe, "mutation-gate", [], ["*"]), map[], None,
           (_, _) => false, (_, _) => Classified(ServiceMutation), _ => None)
  }

  lemma WatcherChecks(records: Cooldowns, now: int)
    ensures var c := ChecksOf(Watcher(), records, None, "x", "y", now);
            DataClear(c) && c.autonomy && c.denyList && c.undeclared
    ensures MatchChoice(Watcher(), "x", "y", None)
    ensures forall m :: MatchChoice(Watcher(), "x", "y", m) ==> m == None
  {
    NotRefused();
    StarMatches("x");
    assert Watcher().guardrails.deniedActions[0] == "*";
  }

  const CALL: ToolCall := ToolCall("id", "x", map["target" := Str("y")], "")
  const YES: ApprovalReply := ApprovalReply(Some(ApprovalResult(true, PhaseApproved, "a", "")), false)
  const NO: ApprovalReply := ApprovalReply(Some(ApprovalResult(false, PhaseDenied, "a", "")), false)

  /** The LLM asks twice for the same call and then answers; the first is approved, the second denied. */
  function AskTwice(): World {
    World(n => if n == 0 then Reply("", [CALL, CALL], Usage(0, 0)) else Reply("done", [], Usage(0, 0)),
          n => if n == 0 then YES else NO,
          _ => true, _ => 0, _ => 0)
  }

  const SETTINGS: Settings := Settings(3, 0, false, true)

  /** The run has two iterations: the calls, then the answer. */
  lemma AskTwiceEnds(r: RunResult, stop: Option<Ending>, requests: seq<Request>, us: seq<Usage>)
    requires 1 <= r.iterations <= 3 && (stop.None? ==> r.iterations == 3)
    requires StopFollows(AskTwice(), SETTINGS, r.iterations - 1, r, requests, us, stop)
    requires AllGoOn(AskTwice(), r.iterations - 1) && UsageOf(AskTwice(), us) && Totals(r, us)
    ensures |us| == 2
  {
    var w := AskTwice();
    assert !GoesOn(w, 1) && GoesOn(w, 0);
    assert r.iterations <= 2;
    assert forall i :: 0 <= i < |us| ==> us[i] == w.respond(i).usage == Usage(0, 0);
    NoUsage(us);
  }

  lemma {:induction false} NoUsage(us: seq<Usage>)
    requires forall i :: 0 <= i < |us| ==> us[i] == Usage(0, 0)
    ensures SumIn(us) == SumOut(us) == 0 && Reported(us)
  {
    if us != [] { NoUsage(us[..|us| - 1]); }
  }

  /**
   * A whole run in which a call that the deny list names and the Action Sheet does not is run,
   * because it needed approval and got it, and which ends Blocked all the same.
   */
  method DeniedCallRuns() returns (r: RunResult, ghost trace: seq<Step>)
    ensures |r.actions| == |trace| == 2 && r.actions[0] == trace[0].record
    ensures trace[0].ran && r.actions[0].status == Approved && r.actions[1].status == Denied
    ensures ChecksAt(Watcher(), trace[0]).denyList && ChecksAt(Watcher(), trace[0]).undeclared
    ensures r.phase == RunBlocked && r.actionsBlocked < r.checksPerformed
  {
    var eng := new ActionEngine(Watcher());
    var stop;
    ghost var requests, us;
    r, stop, trace, requests, us := ConversationLoop(eng, SETTINGS, AskTwice());
    AskTwiceEnds(r, stop, requests, us);
    AskTwiceRecords(r, trace);
  }

  lemma AskTwiceRecords(r: RunResult, trace: seq<Step>)
    requires Audited(r, trace) && Handles(trace, 0, Asked(AskTwice(), 2))
    requires Follows(Watcher(), SETTINGS, trace) && AllTabled(Watcher(), SETTINGS, AskTwice(), trace)
    ensures |trace| == |r.actions| == 2 && r.actions[0] == trace[0].record
    ensures trace[0].ran && r.actions[0].status == Approved && r.actions[1].status == Denied
    ensures ChecksAt(Watcher(), trace[0]).denyList && ChecksAt(Watcher(), trace[0]).undeclared
    ensures r.actionsBlocked == 1
  {
    var w := AskTwice();
    assert Asked(w, 1) == [CALL, CALL];
    assert Asked(w, 2) == [CALL, CALL];
    CallIsTabled(trace, 0);
    CallIsTabled(trace, 1);
    assert r.actions == [r.actions[0]] + [r.actions[1]];
    CountSnoc([], r.actions[0]);
    CountSnoc([r.actions[0]], r.actions[1]);
    assert [] + [r.actions[0]] == [r.actions[0]];
  }

  lemma CallIsTabled(trace: seq<Step>, i: nat)
    requires i < |trace| == 2 && Handles(trace, 0, [CALL, CALL])
    requires Follows(Watcher(), SETTINGS, trace) && AllTabled(Watcher(), SETTINGS, AskTwice(), trace)
    ensures var c := ChecksAt(Watcher(), trace[i]); c.denyList && c.undeclared
    ensures trace[i].record.status == (if i == 0 then Approved else Denied) && (trace[i].ran <==> i == 0)
  {
    var t := trace[i];
    assert t.record.tool == [CALL, CALL][i].name && t.record.target == "y" by {
      assert t == trace[0 + i];
    }
    assert StepFollows(Watcher(), SETTINGS, t) && AsTabled(Watcher(), SETTINGS, AskTwice(), i, t);
    WatcherChecks(t.seen, t.checkedAt);
    assert MatchChoice(Watcher(), "x", "y", t.decision.matched);
  }

  // ---------------------------------------------------------------- an unspaced pair

  const ACT: Action := Action("act", "*", "", "service-mutation", "10s")

  /** One action for every tool; tool `x` needs approval, the others do not. */
  function Operator(mode: string): Config {
    Config("agent", Guardrails(AutomateSafe, mode, [], []), map["act" := ACT], None,
           (_, _) => false, (tool, _) => Classified(if tool == "x" then DestructiveMutation else ServiceMutation),
           _ => Some(10))
  }

  lemma OperatorChecks(mode: string, records: Cooldowns, tool: string, now: int)
    requires tool == "x" || tool == "z"
    requires CooldownKey("agent", "act", "y") !in records
    ensures MatchChoice(Operator(mode), tool, "y", Some(ACT))
    ensures var c := ChecksOf(Operator(mode), records, Some(ACT), tool, "y", now);
            DataClear(c) && (c.autonomy <==> tool == "x") && PolicyClear(c)
  {
    NotRefused();
    StarMatches(tool);
    assert "act" in Operator(mode).actionRegistry;
  }

  lemma OperatorStep(mode: string, records: Cooldowns, tool: string) returns (t: Step)
    requires tool == "x" || tool == "z"
    requires mode != "" && mode != "none" && CooldownKey("agent", "act", "y") !in records
    ensures StepFollows(Operator(mode), SETTINGS, t) && Decides(t, records, Some(ACT), tool, "y", 0) && t.recordedAt == 0
    ensures t.record.status == if tool == "x" then Approved else Executed
  {
    OperatorChecks(mode, records, tool, 0);
    t := Runnable(Operator(mode), SETTINGS, records, Some(ACT), tool, "y", 0);
  }

  lemma KeysDiffer()
    ensures CooldownKey("agent", "x", "y") != CooldownKey("agent", "act", "y")
  {
    assert |CooldownKey("agent", "x", "y")| != |CooldownKey("agent", "act", "y")|;
  }

  /** An action that ran with approval may run again at once, in spite of its cooldown. */
  lemma ApprovedThenExecuted(mode: string) returns (t: Step, u: Step)
    requires mode != "" && mode != "none"
    ensures StepFollows(Operator(mode), SETTINGS, t) && StepFollows(Operator(mode), SETTINGS, u)
    ensures u.seen == Cooled(Operator(mode), t) && u.checkedAt == t.recordedAt
    ensures t.record.status == Approved && u.record.status == Executed
    ensures t.decision.matched == u.decision.matched == Some(ACT) && t.record.target == u.record.target
    ensures ACT.cooldown != "" && Operator(mode).parseDuration(ACT.cooldown) == Some(10)
  {
    t := OperatorStep(mode, map[], "x");
    KeysDiffer();
    assert Cooled(Operator(mode), t).Keys == {CooldownKey("agent", "x", "y")};
    u := OperatorStep(mode, Cooled(Operator(mode), t), "z");
  }

  // ---------------------------------------------------------------- a mutation without approval

  /** In the mode every-action a mutation that the autonomy covers runs without approval. */
  lemma EveryActionRunsUnapproved() returns (t: Step)
    ensures Operator("every-action").guardrails.approvalMode == "every-action"
    ensures StepFollows(Operator("every-action"), SETTINGS, t)
    ensures t.ran && t.record.status == Executed && t.decision.tier == ServiceMutation && t.approval == None
  {
    var mode := "every-action";
    t := OperatorStep(mode, map[], "z");
    assert FinalTier(Operator(mode), Some(ACT), "z", "y") == ServiceMutation;
  }

  // ---------------------------------------------------------------- a database resource that is deleted

  const JANITOR: Action := Action("clean", "*", "", "destructive-mutation", "")

  /** May do anything destructive; one action for every tool. */
  function Janitor(): Config {
    Config("agent", Guardrails(AutomateDestructive, "", [], []), map["clean" := JANITOR], None,
           (_, _) => false, (_, _) => NotClassifiable, _ => None)
  }

  const BACKUPS: Args := map["resource" := Str("scheduledbackups")]

  lemma MissingChar(text: string, sub: string, c: char)
    requires c in sub && c !in text
    ensures !Contains(text, sub)
  {
    var j :| 0 <= j < |sub| && sub[j] == c;
    forall k: int ensures !OccursAt(text, sub, k) {
      if 0 <= k <= k + |sub| <= |text| { assert text[k..k + |sub|][j] == text[k + j] != c; }
    }
  }

  lemma NoSql(rules: DP.Rules, tool: string, target: string, c: char)
    requires Protection.LowerLiteral(tool) && Protection.LowerLiteral(target)
    requires c !in tool && c !in target && c != ' '
    requires forall i :: 0 <= i < |rules.sql| ==> c in rules.sql[i]
    ensures !Protection.SpellsSql(rules, tool, target)
  {
    var text := tool + " " + target;
    Protection.LowerLiteralFacts(text);
    forall i | 0 <= i < |rules.sql| ensures !Contains(ToLower(text), rules.sql[i]) {
      MissingChar(text, rules.sql[i], c);
    }
  }

  lemma LowerIsSame(s: string)
    requires Protection.LowerLiteral(s)
    ensures ToLower(s) == s
  {
  }

  lemma BackupsLower(resource: string)
    requires resource == "scheduledbackups"
    ensures ToLower(resource) == "scheduledbackups" && ToLower(resource) in Protection.MISSED
  {
    LowerIsSame(resource);
  }

  lemma BackupsHoldNoSql()
    ensures !Protection.SpellsSql(DP.RULES, "kubectl.delete", "scheduledbackups")
  {
    assert forall i :: 0 <= i < |DP.RULES.sql| ==> 'r' in DP.RULES.sql[i] by {
      assert "drop database"[1] == "drop table"[1] == "truncate "[1] == "delete from "[8] == 'r';
    }
    NoSql(DP.RULES, "kubectl.delete", "scheduledbackups", 'r');
  }

  lemma BackupsAreMissed(target: string)
    requires target == ExtractTarget(BACKUPS, "")
    ensures target == "scheduledbackups" && !DP.Refuses("kubectl.delete", target)
  {
    assert target == "scheduledbackups" + "" + "" == "scheduledbackups";
    BackupsLower(BACKUPS["resource"].s);
    ScheduledBackups(BACKUPS["resource"].s);
    BackupsHoldNoSql();
    Protection.CnpgDeleteRefusedIff(BACKUPS, "");
  }

  lemma JanitorChecks(tool: string, target: string)
    requires !DP.Refuses(tool, target)
    ensures MatchChoice(Janitor(), tool, target, Some(JANITOR))
    ensures var c := ChecksOf(Janitor(), map[], Some(JANITOR), tool, target, 0);
            DataClear(c) && !c.autonomy && PolicyClear(c)
  {
    StarMatches(tool);
    assert "clean" in Janitor().actionRegistry;
    assert FinalTier(Janitor(), Some(JANITOR), tool, target) == DestructiveMutation;
  }

  lemma JanitorStep(tool: string, target: string) returns (t: Step)
    requires !DP.Refuses(tool, target)
    ensures StepFollows(Janitor(), SETTINGS, t) && t.ran && t.record.status == Executed && t.approval == None
    ensures t.record.tool == tool && t.record.target == target
  {
    JanitorChecks(tool, target);
    t := Runnable(Janitor(), SETTINGS, map[], Some(JANITOR), tool, target, 0);
  }

  /** kubectl.delete of scheduled backups, spelled in the plural, runs without approval. */
  lemma ScheduledBackupsDeleted() returns (t: Step)
    ensures StepFollows(Janitor(), SETTINGS, t) && t.ran && t.record.status == Executed && t.approval == None
    ensures t.record.tool == "kubectl.delete" && t.record.target == ExtractTarget(BACKUPS, "")
    ensures BACKUPS["resource"] == Str("scheduledbackups")
    ensures ResourceToGVR(BACKUPS["resource"].s) == GVR(CNPG_GROUP, "v1", "scheduledbackups")
  {
    BackupsLower(BACKUPS["resource"].s);
    ScheduledBackups(BACKUPS["resource"].s);
    BackupsAreMissed(ExtractTarget(BACKUPS, ""));
    t := JanitorStep("kubectl.delete", ExtractTarget(BACKUPS, ""));
  }
}
