/**
 * The runner's conversation loop: an adversarial LLM asks for tool calls, the engine decides each
 * one, and every call leaves one audit record. Replies, approvals, tool outcomes and the clock are
 * arbitrary functions, so a statement about the loop is a statement about every run.
 */
module Runner {
  import opened Types
  import opened Targets
  import opened Conversation
  import opened Engine

  datatype Settings = Settings(
    maxIterations: int,
    tokenBudget: int,
    escalates: bool,
    hasApprovalManager: bool)
  {
    function Iterations(): (n: nat)
      ensures n > 0 && (maxIterations > 0 ==> n == maxIterations) && (maxIterations <= 0 ==> n == 10)
    {
      if maxIterations <= 0 then 10 else maxIterations
    }

    function Budget(): (b: int)
      ensures b > 0 && (tokenBudget > 0 ==> b == tokenBudget) && (tokenBudget <= 0 ==> b == 50000)
    {
      if tokenBudget <= 0 then 50000 else tokenBudget
    }
  }

  datatype Reply = ProviderError | Reply(content: string, calls: seq<ToolCall>, usage: Usage)

  /** What RequestApproval returned: a nil or non-nil result, and whether there was an error. */
  datatype ApprovalReply = ApprovalReply(result: Option<ApprovalResult>, err: bool)

  /** The outside world, by iteration for the LLM and by call number for everything else. */
  datatype World = World(
    respond: nat -> Reply,
    approve: nat -> ApprovalReply,
    succeeds: nat -> bool,
    checkedAt: nat -> int,
    recordedAt: nat -> int)
  {
    /** Each call is checked before it is recorded, and recorded before the next is checked. */
    ghost predicate ClockRuns() {
      && (forall i: nat, j: nat :: i <= j ==> checkedAt(i) <= recordedAt(j))
      && (forall i: nat, j: nat :: i < j ==> recordedAt(i) <= checkedAt(j))
      && (forall i: nat, j: nat :: i <= j ==> recordedAt(i) <= recordedAt(j))
    }
  }

  datatype Record = Record(
    seqNo: int,
    tool: string,
    target: string,
    tier: Tier,
    status: ActionStatus,
    escalated: bool)

  /** One tool call as it happened, with the cooldown state the engine saw. */
  datatype Step = Step(
    decision: Decision,
    ran: bool,
    approval: Option<ApprovalReply>,
    seen: Cooldowns,
    checkedAt: int,
    recordedAt: int,
    record: Record)

  datatype Ending = BudgetSpent | ProviderFailed | FinalAnswer(content: string)

  datatype RunResult = RunResult(
    actions: seq<Record>,
    phase: RunPhase,
    totalIn: int,
    totalOut: int,
    iterations: nat,
    checksPerformed: nat,
    actionsBlocked: nat,
    escalationsTriggered: nat)

  // ---------------------------------------------------------------- one tool call

  predicate Granted(a: ApprovalReply) { !a.err && a.result.Some? && a.result.value.approved }

  /** The statuses that stand for a call that was turned away. */
  predicate TurnedAway(s: ActionStatus) { s in {Blocked, Denied, Skipped, PendingApproval} }

  /** How a call whose approval was not granted is recorded. */
  function Refusal(a: ApprovalReply): ActionStatus {
    if a.result.Some? && a.result.value.phase == PhaseDenied then Denied else Blocked
  }

  /** What the runner may do with a decision. */
  ghost predicate StepFollows(e: Config, s: Settings, t: Step) {
    var d := t.decision;
    var asks := d.needsApproval && s.hasApprovalManager;
    && EvaluationOf(e, t.seen, t.record.tool, t.record.target, t.checkedAt, d)
    && t.record.tier == d.tier
    && (t.approval.Some? <==> asks)
    && (t.ran <==> d.allowed || (asks && Granted(t.approval.value)))
    && (t.ran <==> t.record.status in {Executed, Approved, Failed})
    && (t.record.status == Executed ==> d.allowed)
    && (t.record.status == Approved ==> asks)
    && (!t.ran <==> TurnedAway(t.record.status))
    && (!t.ran && asks ==> t.record.status == Refusal(t.approval.value))
    && (!t.ran && !asks ==> t.record.status == d.status)
    && (t.record.escalated <==> !t.ran && !asks && s.escalates)
  }

  /** The ID under which a finished call is recorded: the matched action's, or the tool name if it was approved. */
  function RecordedID(t: Step): Option<string> {
    if t.record.status == Executed && t.decision.matched.Some? then Some(t.decision.matched.value.id)
    else if t.record.status == Approved then Some(t.record.tool)
    else None
  }

  function Cooled(e: Config, t: Step): Cooldowns {
    if RecordedID(t).Some? then
      t.seen[CooldownKey(e.agentName, RecordedID(t).value, t.record.target) := t.recordedAt]
    else t.seen
  }

  method ProcessCall(eng: ActionEngine, s: Settings, w: World, call: ToolCall, n: nat)
    returns (record: Record, reply: ToolResult, ghost step: Step)
    modifies eng`cooldowns
    ensures StepFollows(eng.config, s, step)
    ensures step.record == record && step.seen == old(eng.cooldowns)
    ensures Observed(w, n, step)
    ensures record.seqNo == n + 1 && record.tool == call.name
    ensures record.target == ExtractTarget(call.args, call.printed)
    ensures reply.toolCallID == call.id && (reply.isError <==> record.status !in {Executed, Approved})
    ensures eng.cooldowns == Cooled(eng.config, step)
  {
    var target := ExtractTarget(call.args, call.printed);
    var d := eng.Evaluate(call.name, target, w.checkedAt(n));
    ghost var seen := eng.cooldowns;
    record := Record(n + 1, call.name, target, d.tier, Blocked, false);
    reply := ToolResult(call.id, true);
    step := Step(d, false, None, seen, w.checkedAt(n), w.recordedAt(n), record);

    if d.needsApproval && s.hasApprovalManager {
      var a := w.approve(n);
      step := step.(approval := Some(a));
      if a.err || a.result.None? || !a.result.value.approved {
        if a.result.Some? && a.result.value.phase == PhaseDenied {
          record := record.(status := Denied);
        }
        step := step.(record := record);
        return;
      }
      step := step.(ran := true);
      if w.succeeds(n) {
        record := record.(status := Approved);
        eng.RecordExecution(call.name, target, w.recordedAt(n));
        reply := reply.(isError := false);
      } else {
        record := record.(status := Failed);
      }
    } else if !d.allowed {
      record := record.(status := d.status, escalated := s.escalates);
    } else {
      step := step.(ran := true);
      if w.succeeds(n) {
        record := record.(status := Executed);
        if d.matched.Some? {
          eng.RecordExecution(d.matched.value.id, target, w.recordedAt(n));
        }
        reply := reply.(isError := false);
      } else {
        record := record.(status := Failed);
      }
    }
    step := step.(record := record);
  }

  // ---------------------------------------------------------------- what holds of every run

  function CountTurnedAway(actions: seq<Record>): nat {
    if actions == [] then 0
    else CountTurnedAway(actions[..|actions| - 1]) + if TurnedAway(actions[|actions| - 1].status) then 1 else 0
  }

  function CountEscalated(actions: seq<Record>): nat {
    if actions == [] then 0
    else CountEscalated(actions[..|actions| - 1]) + if actions[|actions| - 1].escalated then 1 else 0
  }

  /** One record per call, numbered from 1, and counters that add up. */
  ghost predicate Audited(r: RunResult, trace: seq<Step>) {
    && |r.actions| == |trace| == r.checksPerformed
    && (forall i :: 0 <= i < |trace| ==> r.actions[i] == trace[i].record && r.actions[i].seqNo == i + 1)
    && r.actionsBlocked == CountTurnedAway(r.actions)
    && r.escalationsTriggered == CountEscalated(r.actions)
    && r.escalationsTriggered <= r.actionsBlocked
  }

  /** Nothing runs unless it cleared every layer, or cleared the data layers and was approved. */
  ghost predicate Safe(e: Config, t: Step) {
    t.ran ==>
      && DataClear(ChecksOf(e, t.seen, t.decision.matched, t.record.tool, t.record.target, t.checkedAt))
      && (|| Cleared(e, t.seen, t.record.tool, t.record.target, t.checkedAt, t.decision)
          || (t.decision.needsApproval && t.approval.Some? && Granted(t.approval.value)))
  }

  ghost predicate SafeRun(e: Config, trace: seq<Step>) {
    forall i {:trigger Safe(e, trace[i])} :: 0 <= i < |trace| ==> Safe(e, trace[i])
  }

  /** The later step executed an action under whose ID the earlier one was recorded, on the same target. */
  predicate Repeats(t: Step, u: Step) {
    && u.record.status == Executed && u.decision.matched.Some?
    && RecordedID(t) == Some(u.decision.matched.value.id)
    && t.record.target == u.record.target
  }

  /** The later one was checked at least its cooldown after the earlier one was recorded. */
  predicate CooledDown(e: Config, t: Step, u: Step)
    requires u.decision.matched.Some?
  {
    var c := u.decision.matched.value.cooldown;
    c != "" && e.parseDuration(c).Some? ==> u.checkedAt - t.recordedAt >= e.parseDuration(c).value
  }

  ghost predicate Spaced(e: Config, trace: seq<Step>) {
    forall i, j :: 0 <= i < j < |trace| && Repeats(trace[i], trace[j]) ==> CooledDown(e, trace[i], trace[j])
  }

  /** The engine remembers every recorded call, at its own time or a later one. */
  ghost predicate Remembers(e: Config, records: Cooldowns, trace: seq<Step>) {
    forall i :: 0 <= i < |trace| && RecordedID(trace[i]).Some? ==>
      var key := CooldownKey(e.agentName, RecordedID(trace[i]).value, trace[i].record.target);
      key in records && records[key] >= trace[i].recordedAt
  }

  /** The step's times, approval and outcome are those the world gave to call `i`. */
  predicate Observed(w: World, i: nat, t: Step) {
    && t.checkedAt == w.checkedAt(i) && t.recordedAt == w.recordedAt(i)
    && (t.approval.Some? ==> t.approval.value == w.approve(i))
    && (t.ran ==> (t.record.status == Failed <==> !w.succeeds(i)))
  }

  ghost predicate AllObserved(w: World, trace: seq<Step>) {
    forall i {:trigger Observed(w, i, trace[i])} :: 0 <= i < |trace| ==> Observed(w, i, trace[i])
  }

  ghost predicate Follows(e: Config, s: Settings, trace: seq<Step>) {
    forall i {:trigger StepFollows(e, s, trace[i])} :: 0 <= i < |trace| ==> StepFollows(e, s, trace[i])
  }

  ghost predicate RunInvariant(e: Config, records: Cooldowns, s: Settings, w: World, r: RunResult, trace: seq<Step>) {
    && Audited(r, trace)
    && Follows(e, s, trace)
    && AllObserved(w, trace)
    && Remembers(e, records, trace)
    && Spaced(e, trace)
    && Chained(e, records, trace)
  }

  /** Each call is checked against what the call before it left behind. */
  ghost predicate Chained(e: Config, records: Cooldowns, trace: seq<Step>) {
    && (trace != [] ==> records == Cooled(e, trace[|trace| - 1]))
    && forall i :: 0 < i < |trace| ==> Linked(e, trace, i)
  }

  predicate Linked(e: Config, trace: seq<Step>, i: nat)
    requires 0 < i < |trace|
  {
    trace[i].seen == Cooled(e, trace[i - 1])
  }

  /** What the first call is checked against. */
  function Initial(trace: seq<Step>, records: Cooldowns): Cooldowns {
    if trace == [] then records else trace[0].seen
  }

  // ---------------------------------------------------------------- one more call

  /** A step the runner takes is safe. */
  lemma FollowedStepIsSafe(e: Config, s: Settings, t: Step)
    requires StepFollows(e, s, t)
    ensures Safe(e, t)
  {
    if t.ran {
      if t.decision.allowed {
        AllowedMeansCleared(e, t.seen, t.record.tool, t.record.target, t.checkedAt, t.decision);
      } else {
        ApprovalRequestedIff(e, t.seen, t.record.tool, t.record.target, t.checkedAt, t.decision);
      }
    }
  }

  /** A call that a data layer stops never runs, approved or not. */
  lemma DataStopNeverRuns(e: Config, s: Settings, t: Step, stage: Stage)
    requires StepFollows(e, s, t)
    requires DataStage(stage)
    requires ChecksOf(e, t.seen, t.decision.matched, t.record.tool, t.record.target, t.checkedAt).Stop(stage)
    ensures !t.ran && t.record.status == Blocked && t.approval == None
  {
  }

  // ---------------------------------------------------------------- what becomes of a call

  function ChecksAt(e: Config, t: Step): Checks {
    ChecksOf(e, t.seen, t.decision.matched, t.record.tool, t.record.target, t.checkedAt)
  }

  /** Neither list, nor the cooldown, nor the Action Sheet is in the way. */
  predicate PolicyClear(c: Checks) { !c.denyList && !c.allowList && !c.cooldown && !c.undeclared }

  /** What the audit record of a call says, by what each check says of it and how the world answers. */
  function StatusOf(c: Checks, g: Guardrails, s: Settings, a: ApprovalReply, succeeds: bool): ActionStatus {
    if !DataClear(c) then Blocked
    else if c.autonomy then
      if g.approvalMode == "" || g.approvalMode == "none" then Blocked
      else if !s.hasApprovalManager then PendingApproval
      else if a.err || a.result.None? || !a.result.value.approved then
        if a.result.Some? && a.result.value.phase == PhaseDenied then Denied else Blocked
      else if succeeds then Approved
      else Failed
    else if c.denyList || c.allowList then Blocked
    else if c.cooldown then Skipped
    else if c.undeclared then Blocked
    else if succeeds then Executed
    else Failed
  }

  /** The record of a step is the one the table gives, and what ran is what the table lets run. */
  ghost predicate AsTabled(e: Config, s: Settings, w: World, i: nat, t: Step) {
    var c := ChecksAt(e, t);
    && t.record.status == StatusOf(c, e.guardrails, s, w.approve(i), w.succeeds(i))
    && (t.ran <==>
          && MayRun(c, e.guardrails, s)
          && (c.autonomy ==> var a := w.approve(i); !a.err && a.result.Some? && a.result.value.approved))
    && (t.approval.Some? <==> MayRun(c, e.guardrails, s) && c.autonomy)
    && (t.record.escalated <==> s.escalates && !MayRun(c, e.guardrails, s))
  }

  ghost predicate AllTabled(e: Config, s: Settings, w: World, trace: seq<Step>) {
    forall i {:trigger AsTabled(e, s, w, i, trace[i])} :: 0 <= i < |trace| ==> AsTabled(e, s, w, i, trace[i])
  }

  /** With this the call runs if its approver, where one is asked, agrees. */
  predicate MayRun(c: Checks, g: Guardrails, s: Settings) {
    DataClear(c) &&
    if c.autonomy then g.approvalMode != "" && g.approvalMode != "none" && s.hasApprovalManager else PolicyClear(c)
  }

  lemma StepIsAsTabled(e: Config, s: Settings, w: World, i: nat, t: Step)
    requires StepFollows(e, s, t) && Observed(w, i, t)
    ensures AsTabled(e, s, w, i, t)
  {
    var c := ChecksAt(e, t);
    assert c.First(t.decision.stage);
  }

  /** A mutation that ran was approved exactly when the autonomy does not cover its tier, in every approval mode. */
  lemma MutationApprovedIff(e: Config, s: Settings, t: Step)
    requires StepFollows(e, s, t) && t.ran && t.decision.tier != Read
    ensures t.approval.Some? <==> !Unlocks(e.guardrails.autonomy, t.decision.tier)
    ensures t.approval.Some? ==> Granted(t.approval.value)
  {
    var c := ChecksAt(e, t);
    assert c.First(t.decision.stage);
    AutonomyLadder(e.guardrails.autonomy, t.decision.tier);
  }

  /**
   * Which calls can run under some approver: those that pass the data layers and either have the
   * autonomy and pass both lists, the cooldown and the Action Sheet, or lack the autonomy while
   * approval is on and a manager is there.
   */
  lemma RunnableIff(
    e: Config, s: Settings, records: Cooldowns, m: Option<Action>, tool: string, target: string, now: int)
    ensures (exists t :: StepFollows(e, s, t) && t.ran && Decides(t, records, m, tool, target, now)) <==>
            && MatchChoice(e, tool, target, m)
            && var c := ChecksOf(e, records, m, tool, target, now);
            && DataClear(c)
            && if Unlocks(e.guardrails.autonomy, FinalTier(e, m, tool, target)) then PolicyClear(c)
               else ApprovalOn(e.guardrails) && s.hasApprovalManager
  {
    var c := ChecksOf(e, records, m, tool, target, now);
    AutonomyLadder(e.guardrails.autonomy, FinalTier(e, m, tool, target));
    if MatchChoice(e, tool, target, m) && MayRun(c, e.guardrails, s) {
      var t := Runnable(e, s, records, m, tool, target, now);
    }
    forall t | StepFollows(e, s, t) && t.ran && Decides(t, records, m, tool, target, now)
      ensures MatchChoice(e, tool, target, m) && MayRun(c, e.guardrails, s)
    {
      assert c.First(t.decision.stage);
    }
  }

  /** The step decides this call, with this entry matched. */
  predicate Decides(t: Step, records: Cooldowns, m: Option<Action>, tool: string, target: string, now: int) {
    && t.seen == records && t.decision.matched == m
    && t.record.tool == tool && t.record.target == target && t.checkedAt == now
  }

  /** The step that runs the call. */
  lemma Runnable(
    e: Config, s: Settings, records: Cooldowns, m: Option<Action>, tool: string, target: string, now: int)
    returns (t: Step)
    requires MatchChoice(e, tool, target, m) && MayRun(ChecksOf(e, records, m, tool, target, now), e.guardrails, s)
    ensures StepFollows(e, s, t) && t.ran && Decides(t, records, m, tool, target, now)
    ensures t.record.status == (if ChecksOf(e, records, m, tool, target, now).autonomy then Approved else Executed)
    ensures t.recordedAt == now
  {
    var asks := ChecksOf(e, records, m, tool, target, now).autonomy;
    var tier := FinalTier(e, m, tool, target);
    var d := Decision(!asks, asks, if asks then PendingApproval else Executed, tier, m, if asks then AutonomyCheck else Passed);
    var yes := ApprovalReply(Some(ApprovalResult(true, PhaseApproved, "", "")), false);
    t := Step(d, true, if asks then Some(yes) else None, records, now, now,
              Record(1, tool, target, tier, if asks then Approved else Executed, false));
  }

  lemma CooldownHolds(e: Config, s: Settings, t: Step, u: Step)
    requires StepFollows(e, s, u) && Repeats(t, u)
    requires var key := CooldownKey(e.agentName, RecordedID(t).value, t.record.target);
             key in u.seen && u.seen[key] >= t.recordedAt
    ensures CooledDown(e, t, u)
  {
    AllowedMeansCleared(e, u.seen, u.record.tool, u.record.target, u.checkedAt, u.decision);
  }

  /**
   * An approved call is recorded under its tool name: it starts the cooldown of the action it
   * matched exactly when that action's ID is the tool name.
   */
  lemma ApprovedCooldown(e: Config, t: Step)
    requires t.record.status == Approved && t.decision.matched.Some?
    ensures var key := CooldownKey(e.agentName, t.decision.matched.value.id, t.record.target);
            if t.decision.matched.value.id == t.record.tool
            then key in Cooled(e, t) && Cooled(e, t)[key] == t.recordedAt
            else (key in Cooled(e, t) <==> key in t.seen) && (key in t.seen ==> Cooled(e, t)[key] == t.seen[key])
  {
    var id, tool := t.decision.matched.value.id, t.record.tool;
    var key, used := CooldownKey(e.agentName, id, t.record.target), CooldownKey(e.agentName, tool, t.record.target);
    if key == used {
      var start := |e.agentName| + 1;
      assert |id| == |tool|;
      assert key[start..start + |id|] == id && used[start..start + |tool|] == tool;
    }
  }

  lemma SpacedSnoc(e: Config, s: Settings, trace: seq<Step>, u: Step)
    requires Spaced(e, trace) && Remembers(e, u.seen, trace) && StepFollows(e, s, u)
    ensures Spaced(e, trace + [u])
  {
    var longer := trace + [u];
    forall i, j | 0 <= i < j < |longer| && Repeats(longer[i], longer[j])
      ensures CooledDown(e, longer[i], longer[j])
    {
      if j == |trace| {
        CooldownHolds(e, s, trace[i], u);
      }
    }
  }

  lemma RemembersSnoc(e: Config, w: World, trace: seq<Step>, u: Step)
    requires w.ClockRuns() && AllObserved(w, trace + [u]) && Remembers(e, u.seen, trace)
    ensures Remembers(e, Cooled(e, u), trace + [u])
  {
    var longer := trace + [u];
    assert u == longer[|trace|];
    forall i | 0 <= i < |longer| && RecordedID(longer[i]).Some?
      ensures var key := CooldownKey(e.agentName, RecordedID(longer[i]).value, longer[i].record.target);
              key in Cooled(e, u) && Cooled(e, u)[key] >= longer[i].recordedAt
    {
      assert w.recordedAt(i) <= w.recordedAt(|trace|);
      assert Observed(w, i, longer[i]) && Observed(w, |trace|, longer[|trace|]);
      if i < |trace| { assert longer[i] == trace[i]; }
    }
  }

  /** The counters after one more record. */
  function Tally(r: RunResult, record: Record): RunResult {
    r.(actions := r.actions + [record],
       checksPerformed := r.checksPerformed + 1,
       actionsBlocked := r.actionsBlocked + (if TurnedAway(record.status) then 1 else 0),
       escalationsTriggered := r.escalationsTriggered + (if record.escalated then 1 else 0))
  }

  lemma CountSnoc(actions: seq<Record>, record: Record)
    ensures CountTurnedAway(actions + [record]) == CountTurnedAway(actions) + if TurnedAway(record.status) then 1 else 0
    ensures CountEscalated(actions + [record]) == CountEscalated(actions) + if record.escalated then 1 else 0
  {
    assert (actions + [record])[..|actions|] == actions;
  }

  lemma AuditedSnoc(r: RunResult, trace: seq<Step>, u: Step)
    requires Audited(r, trace) && u.record.seqNo == |trace| + 1
    requires u.record.escalated ==> TurnedAway(u.record.status)
    ensures Audited(Tally(r, u.record), trace + [u])
  {
    CountSnoc(r.actions, u.record);
  }

  lemma ObservedSnoc(w: World, trace: seq<Step>, u: Step)
    requires AllObserved(w, trace) && Observed(w, |trace|, u)
    ensures AllObserved(w, trace + [u])
  {
    var longer := trace + [u];
    forall i | 0 <= i < |longer| ensures Observed(w, i, longer[i]) {
      if i < |trace| { assert Observed(w, i, trace[i]); }
    }
  }

  lemma FollowsSnoc(e: Config, s: Settings, trace: seq<Step>, u: Step)
    requires Follows(e, s, trace) && StepFollows(e, s, u)
    ensures Follows(e, s, trace + [u])
  {
    var longer := trace + [u];
    forall i | 0 <= i < |longer| ensures StepFollows(e, s, longer[i]) {
      if i < |trace| { assert StepFollows(e, s, trace[i]); }
    }
  }

  lemma EscalatedIsTurnedAway(e: Config, s: Settings, u: Step)
    requires StepFollows(e, s, u) && u.record.escalated
    ensures TurnedAway(u.record.status)
  {
  }

  lemma ChainedSnoc(e: Config, trace: seq<Step>, u: Step)
    requires Chained(e, u.seen, trace)
    ensures Chained(e, Cooled(e, u), trace + [u])
  {
    var longer := trace + [u];
    forall i | 0 < i < |longer| ensures Linked(e, longer, i) {
      if i < |trace| { assert Linked(e, trace, i); }
    }
  }

  lemma InvariantSnoc(e: Config, s: Settings, w: World, r: RunResult, trace: seq<Step>, u: Step)
    requires w.ClockRuns() && RunInvariant(e, u.seen, s, w, r, trace)
    requires StepFollows(e, s, u) && u.record.seqNo == |trace| + 1
    requires Observed(w, |trace|, u)
    ensures RunInvariant(e, Cooled(e, u), s, w, Tally(r, u.record), trace + [u])
  {
    ObservedSnoc(w, trace, u);
    FollowsSnoc(e, s, trace, u);
    SpacedSnoc(e, s, trace, u);
    RemembersSnoc(e, w, trace, u);
    ChainedSnoc(e, trace, u);
    if u.record.escalated { EscalatedIsTurnedAway(e, s, u); }
    AuditedSnoc(r, trace, u);
  }

  // ---------------------------------------------------------------- cooldowns, exactly

  /** Two executions of one action on one target are its cooldown apart, and so is one after an approval under its ID. */
  ghost predicate ExecutionsSpaced(e: Config, trace: seq<Step>) {
    forall i, j ::
      && 0 <= i < j < |trace| && trace[j].record.status == Executed
      && trace[i].decision.matched.Some? && trace[j].decision.matched.Some?
      && trace[i].record.target == trace[j].record.target
      && (|| (trace[i].record.status == Executed && trace[i].decision.matched.value.id == trace[j].decision.matched.value.id)
          || (trace[i].record.status == Approved && trace[i].record.tool == trace[j].decision.matched.value.id)) ==>
        CooledDown(e, trace[i], trace[j])
  }

  lemma SpacedExecutions(e: Config, trace: seq<Step>)
    requires Spaced(e, trace)
    ensures ExecutionsSpaced(e, trace)
  {
  }

  /** The finished call starts the cooldown of this key. */
  predicate Stamps(e: Config, t: Step, key: string) {
    || (&& t.record.status == Executed && t.decision.matched.Some?
        && key == e.agentName + "/" + t.decision.matched.value.id + "/" + t.record.target)
    || (t.record.status == Approved && key == e.agentName + "/" + t.record.tool + "/" + t.record.target)
  }

  /** The records are those of the first `n` calls, each at its latest time. */
  ghost predicate Recalls(e: Config, records: Cooldowns, trace: seq<Step>, n: nat)
    requires n <= |trace|
  {
    && (forall key :: key in records ==> exists i :: 0 <= i < n && Stamps(e, trace[i], key) && trace[i].recordedAt == records[key])
    && (forall i, key :: 0 <= i < n && Stamps(e, trace[i], key) ==> key in records && trace[i].recordedAt <= records[key])
  }

  lemma RecallsNext(e: Config, w: World, trace: seq<Step>, n: nat)
    requires w.ClockRuns() && AllObserved(w, trace) && n < |trace| && Recalls(e, trace[n].seen, trace, n)
    ensures Recalls(e, Cooled(e, trace[n]), trace, n + 1)
  {
    var records := Cooled(e, trace[n]);
    assert Observed(w, n, trace[n]);
    forall key | key in records
      ensures exists i :: 0 <= i < n + 1 && Stamps(e, trace[i], key) && trace[i].recordedAt == records[key]
    {
      if !Stamps(e, trace[n], key) {
        var i :| 0 <= i < n && Stamps(e, trace[i], key) && trace[i].recordedAt == trace[n].seen[key];
      }
    }
    forall i, key | 0 <= i < n + 1 && Stamps(e, trace[i], key)
      ensures key in records && trace[i].recordedAt <= records[key]
    {
      assert Observed(w, i, trace[i]) && w.recordedAt(i) <= w.recordedAt(n);
    }
  }

  lemma {:induction false} SeenIsRecalled(e: Config, w: World, trace: seq<Step>, n: nat)
    requires w.ClockRuns() && AllObserved(w, trace) && n < |trace| && trace[0].seen == map[]
    requires forall i :: 0 < i < |trace| ==> Linked(e, trace, i)
    ensures Recalls(e, trace[n].seen, trace, n)
  {
    if n > 0 {
      SeenIsRecalled(e, w, trace, n - 1);
      RecallsNext(e, w, trace, n - 1);
      assert Linked(e, trace, n);
    }
  }

  /** Call `j` is held back by a cooldown exactly when an earlier call started that cooldown too recently. */
  ghost predicate CooledAt(e: Config, trace: seq<Step>, j: nat)
    requires j < |trace|
  {
    var u := trace[j];
    ChecksAt(e, u).cooldown <==>
      && u.decision.matched.Some?
      && var a := u.decision.matched.value;
      && a.cooldown != "" && e.parseDuration(a.cooldown).Some?
      && exists i :: 0 <= i < j && Stamps(e, trace[i], e.agentName + "/" + a.id + "/" + u.record.target) &&
                     u.checkedAt - trace[i].recordedAt < e.parseDuration(a.cooldown).value
  }

  ghost predicate AllCooledExactly(e: Config, trace: seq<Step>) {
    forall j :: 0 <= j < |trace| ==> CooledAt(e, trace, j)
  }

  lemma CooledExactly(e: Config, w: World, trace: seq<Step>)
    requires w.ClockRuns() && AllObserved(w, trace) && trace != [] && trace[0].seen == map[]
    requires forall i :: 0 < i < |trace| ==> Linked(e, trace, i)
    ensures AllCooledExactly(e, trace)
  {
    forall j | 0 <= j < |trace| ensures CooledAt(e, trace, j) {
      SeenIsRecalled(e, w, trace, j);
      RecalledIsCooled(e, trace, j);
    }
  }

  lemma RecalledIsCooled(e: Config, trace: seq<Step>, j: nat)
    requires j < |trace| && Recalls(e, trace[j].seen, trace, j)
    ensures CooledAt(e, trace, j)
  {
    var u := trace[j];
    if u.decision.matched.Some? {
      var key := e.agentName + "/" + u.decision.matched.value.id + "/" + u.record.target;
      assert key == CooldownKey(e.agentName, u.decision.matched.value.id, u.record.target);
    }
  }

  // ---------------------------------------------------------------- all the calls of one reply

  /** Step `base + i` handles call `i`. */
  ghost predicate Handles(trace: seq<Step>, base: nat, calls: seq<ToolCall>) {
    && |trace| == base + |calls|
    && forall i :: 0 <= i < |calls| ==>
         && trace[base + i].record.tool == calls[i].name
         && trace[base + i].record.target == ExtractTarget(calls[i].args, calls[i].printed)
  }

  predicate SameRun(r: RunResult, r0: RunResult) {
    && r.phase == r0.phase && r.iterations == r0.iterations
    && r.totalIn == r0.totalIn && r.totalOut == r0.totalOut
  }

  method ProcessNext(eng: ActionEngine, s: Settings, w: World, call: ToolCall, r0: RunResult, ghost trace0: seq<Step>)
    returns (r: RunResult, reply: ToolResult, ghost trace: seq<Step>)
    requires w.ClockRuns()
    requires RunInvariant(eng.config, eng.cooldowns, s, w, r0, trace0)
    modifies eng`cooldowns
    ensures RunInvariant(eng.config, eng.cooldowns, s, w, r, trace)
    ensures trace0 <= trace && Handles(trace, |trace0|, [call])
    ensures reply.toolCallID == call.id
    ensures SameRun(r, r0) && Initial(trace, eng.cooldowns) == Initial(trace0, old(eng.cooldowns))
  {
    var record;
    ghost var step;
    record, reply, step := ProcessCall(eng, s, w, call, r0.checksPerformed);
    InvariantSnoc(eng.config, s, w, r0, trace0, step);
    HandlesOne(trace0, step, call);
    r := Tally(r0, record);
    trace := trace0 + [step];
  }

  lemma HandlesOne(trace: seq<Step>, u: Step, call: ToolCall)
    requires u.record.tool == call.name && u.record.target == ExtractTarget(call.args, call.printed)
    ensures Handles(trace + [u], |trace|, [call])
    ensures forall records :: Initial(trace + [u], records) == Initial(trace, u.seen)
  {
  }

  lemma HandlesSnoc(trace: seq<Step>, base: nat, calls: seq<ToolCall>, trace': seq<Step>, call: ToolCall)
    requires Handles(trace, base, calls) && trace <= trace' && Handles(trace', |trace|, [call])
    ensures Handles(trace', base, calls + [call])
  {
    assert trace'[|trace| + 0].record.tool == [call][0].name;
  }

  /** What is true after the first calls of a response: each has its step and its reply. */
  ghost predicate Processed(calls: seq<ToolCall>, trace0: seq<Step>, trace: seq<Step>, replies: seq<ToolResult>) {
    && trace0 <= trace
    && Handles(trace, |trace0|, calls)
    && Answers(Assistant(calls), ToolResults(replies))
  }

  lemma ProcessedSnoc(
    calls: seq<ToolCall>, k: nat, trace0: seq<Step>, trace: seq<Step>, replies: seq<ToolResult>,
    trace': seq<Step>, reply: ToolResult)
    requires k < |calls| && Processed(calls[..k], trace0, trace, replies)
    requires trace <= trace' && Handles(trace', |trace|, [calls[k]]) && reply.toolCallID == calls[k].id
    ensures Processed(calls[..k + 1], trace0, trace', replies + [reply])
  {
    assert calls[..k + 1] == calls[..k] + [calls[k]];
    HandlesSnoc(trace, |trace0|, calls[..k], trace', calls[k]);
  }

  method ProcessCalls(eng: ActionEngine, s: Settings, w: World, calls: seq<ToolCall>, r0: RunResult, ghost trace0: seq<Step>)
    returns (r: RunResult, replies: seq<ToolResult>, ghost trace: seq<Step>)
    requires w.ClockRuns()
    requires RunInvariant(eng.config, eng.cooldowns, s, w, r0, trace0)
    modifies eng`cooldowns
    ensures RunInvariant(eng.config, eng.cooldowns, s, w, r, trace)
    ensures Processed(calls, trace0, trace, replies)
    ensures SameRun(r, r0) && Initial(trace, eng.cooldowns) == Initial(trace0, old(eng.cooldowns))
  {
    r, replies, trace := r0, [], trace0;
    for k := 0 to |calls|
      invariant RunInvariant(eng.config, eng.cooldowns, s, w, r, trace)
      invariant Processed(calls[..k], trace0, trace, replies)
      invariant SameRun(r, r0) && Initial(trace, eng.cooldowns) == Initial(trace0, old(eng.cooldowns))
    {
      var reply;
      ghost var before := trace;
      r, reply, trace := ProcessNext(eng, s, w, calls[k], r, trace);
      ProcessedSnoc(calls, k, trace0, before, replies, trace, reply);
      replies := replies + [reply];
    }
    assert calls[..|calls|] == calls;
  }

  // ---------------------------------------------------------------- the budget of each request

  /** The running totals are the sums of what was reported, as long as those fit an int64. */
  ghost predicate Totals(r: RunResult, us: seq<Usage>) {
    Reported(us) ==> r.totalIn == SumIn(us) && r.totalOut == SumOut(us)
  }

  predicate OverBudget(r: RunResult, budget: int) { Int64(r.totalIn + r.totalOut) >= budget }

  function Ask(r: RunResult, budget: int): int {
    CapMaxTokens(Int32(Int64(budget - r.totalIn - r.totalOut)))
  }

  lemma AskIsWithinBudget(requests: seq<Request>, us: seq<Usage>, r: RunResult, budget: int, req: Request)
    requires Totals(r, us) && 0 < budget < 0x8000_0000_0000_0000 && !OverBudget(r, budget)
    requires |requests| == |us| && WithinBudget(requests, us, budget)
    requires req.maxTokens == Ask(r, budget)
    ensures WithinBudget(requests + [req], us, budget)
  {
    CapWithinRemaining(Int64(budget - r.totalIn - r.totalOut));
    CapIsAllowance(Int64(budget - r.totalIn - r.totalOut));
    if Reported(us) {
      UsedNonNegative(us);
      assert us[..|us|] == us;
    }
  }

  lemma UseIsWithinBudget(requests: seq<Request>, us: seq<Usage>, budget: int, u: Usage)
    requires |requests| == |us| + 1 && WithinBudget(requests, us, budget)
    ensures WithinBudget(requests, us + [u], budget)
  {
    if Reported(us + [u]) {
      ReportedPrefix(us, u);
      assert forall i :: 0 <= i <= |us| ==> (us + [u])[..i] == us[..i];
    }
  }

  function Spend(r: RunResult, u: Usage): RunResult {
    r.(totalIn := Int64(r.totalIn + u.inTokens), totalOut := Int64(r.totalOut + u.outTokens))
  }

  lemma SpendKeepsTotals(r: RunResult, us: seq<Usage>, u: Usage)
    requires Totals(r, us)
    ensures Totals(Spend(r, u), us + [u])
  {
    if Reported(us + [u]) {
      ReportedPrefix(us, u);
      assert (us + [u])[..|us|] == us;
    }
  }

  // ---------------------------------------------------------------- the whole run

  /** How many exchanges the request of iteration `n` carries. */
  function Kept(n: nat): nat { if n < 4 then n else 4 }

  /** The assistant message of exchange `j` holds the calls of the reply it repeats. */
  ghost predicate Repeated(w: World, n: nat, ms: seq<Message>, j: nat)
    requires j < Kept(n) && |ms| > 2 * Kept(n)
  {
    var reply := w.respond(n - Kept(n) + j);
    reply.Reply? && ms[2 * j + 1] == Assistant(reply.calls)
  }

  /** After the task come the latest exchanges, all of them as long as there are at most four. */
  ghost predicate Carries(w: World, n: nat, ms: seq<Message>) {
    |ms| > 2 * Kept(n) && forall j :: 0 <= j < Kept(n) ==> Repeated(w, n, ms, j)
  }

  /** Every request keeps the protocol, and carries the latest exchanges and nothing but the nudge besides. */
  ghost predicate RequestsKeepProtocol(w: World, requests: seq<Request>, maxIterations: nat) {
    && |requests| <= maxIterations
    && forall i :: 0 <= i < |requests| ==> RequestKeepsProtocol(w, i, requests[i], i == maxIterations - 1)
  }

  ghost predicate RequestKeepsProtocol(w: World, i: nat, req: Request, last: bool) {
    && Protocol(req.messages) && Carries(w, i, req.messages)
    && |req.messages| == 2 * Kept(i) + (if last then 2 else 1) <= 10
    && req.offersTools == !last
  }

  /** The tool calls of the first `n` replies, in order. */
  function Asked(w: World, n: nat): seq<ToolCall> {
    if n == 0 then []
    else Asked(w, n - 1) + if w.respond(n - 1).Reply? then w.respond(n - 1).calls else []
  }

  ghost predicate UsageOf(w: World, us: seq<Usage>) {
    forall i :: 0 <= i < |us| ==> w.respond(i).Reply? && us[i] == w.respond(i).usage
  }

  /** How the phase follows from the way the loop ended and from the audit records. */
  ghost predicate PhaseFollows(r: RunResult, stop: Option<Ending>, maxIterations: nat) {
    var allBlocked := r.actionsBlocked > 0 && forall i :: 0 <= i < |r.actions| ==> r.actions[i].status != Executed;
    var answered := stop.Some? && stop.value.FinalAnswer? && !(r.iterations == maxIterations && stop.value.content == "");
    && (r.phase == RunBlocked <==> allBlocked)
    && (r.phase == Escalated <==> !allBlocked && answered && r.escalationsTriggered > 0)
    && (r.phase == Succeeded <==> !allBlocked && answered && r.escalationsTriggered == 0)
    && (r.phase == RunFailed <==> !allBlocked && !answered)
  }

  method FinalPhase(r: RunResult, stop: Option<Ending>, maxIterations: nat) returns (phase: RunPhase)
    requires r.actionsBlocked == CountTurnedAway(r.actions)
    requires r.iterations <= maxIterations && (stop.None? ==> r.iterations == maxIterations)
    ensures PhaseFollows(r.(phase := phase), stop, maxIterations)
  {
    var report := if stop.Some? && stop.value.FinalAnswer? then stop.value.content else "";
    phase := if stop.Some? && !stop.value.FinalAnswer? then RunFailed else Succeeded;
    if r.iterations >= maxIterations && phase == Succeeded && report == "" {
      phase := RunFailed;
    }
    if r.escalationsTriggered > 0 && phase == Succeeded {
      phase := Escalated;
    }
    if r.actionsBlocked > 0 && |r.actions| > 0 {
      var allBlocked := true;
      for i := 0 to |r.actions|
        invariant allBlocked
        invariant forall j :: 0 <= j < i ==> r.actions[j].status != Executed
      {
        if r.actions[i].status == Executed {
          allBlocked := false;
          break;
        }
      }
      if allBlocked {
        phase := RunBlocked;
      }
    }
  }

  lemma {:induction false} CountAll(actions: seq<Record>)
    ensures CountTurnedAway(actions) <= |actions|
    ensures CountTurnedAway(actions) == |actions| <==> forall i :: 0 <= i < |actions| ==> TurnedAway(actions[i].status)
    decreases |actions|
  {
    if actions != [] {
      var n := |actions| - 1;
      CountAll(actions[..n]);
      assert forall i :: 0 <= i < n ==> actions[..n][i] == actions[i];
    }
  }

  /** In a run that ends Blocked every call was turned away if and only if none was approved or failed. */
  lemma BlockedTurnedAwayIff(e: Config, s: Settings, r: RunResult, trace: seq<Step>, stop: Option<Ending>, maxIterations: nat)
    requires Audited(r, trace) && Follows(e, s, trace) && PhaseFollows(r, stop, maxIterations) && r.phase == RunBlocked
    ensures r.actionsBlocked == r.checksPerformed <==>
            forall i :: 0 <= i < |r.actions| ==> r.actions[i].status !in {Approved, Failed}
  {
    CountAll(r.actions);
    forall i | 0 <= i < |r.actions|
      ensures TurnedAway(r.actions[i].status) <==> r.actions[i].status !in {Approved, Failed}
    {
      assert StepFollows(e, s, trace[i]) && r.actions[i] == trace[i].record;
      assert r.actions[i].status != Executed;
    }
  }

  /** What holds throughout a run; `us` holds the usage of the replies received so far. */
  ghost predicate RunFacts(
    e: Config, records: Cooldowns, s: Settings, w: World,
    r: RunResult, trace: seq<Step>, requests: seq<Request>, us: seq<Usage>)
  {
    && RunInvariant(e, records, s, w, r, trace)
    && Handles(trace, 0, Asked(w, |us|)) && UsageOf(w, us)
    && RequestsKeepProtocol(w, requests, s.Iterations())
    && WithinBudget(requests, us, s.Budget())
    && Totals(r, us)
  }

  /** The message list between two turns. */
  ghost predicate Ready(w: World, n: nat, messages: seq<Message>) {
    Paired(messages) && |messages| == 2 * Kept(n) + 1 && Carries(w, n, messages)
  }

  /** The message list of the `n`th request. */
  function Prompt(messages: seq<Message>, last: bool): seq<Message> {
    if last then messages + [Nudge] else messages
  }

  lemma PromptKeepsProtocol(w: World, n: nat, messages: seq<Message>, maxTokens: int, last: bool)
    requires Ready(w, n, messages)
    ensures RequestKeepsProtocol(w, n, Request(Prompt(messages, last), maxTokens, !last), last)
  {
    PairedIsProtocol(messages);
    var prompt := Prompt(messages, last);
    forall j | 0 <= j < Kept(n) ensures Repeated(w, n, prompt, j) {
      assert Repeated(w, n, messages, j) && prompt[2 * j + 1] == messages[2 * j + 1];
    }
  }

  lemma RequestSnoc(w: World, requests: seq<Request>, maxIterations: nat, req: Request)
    requires RequestsKeepProtocol(w, requests, maxIterations) && |requests| < maxIterations
    requires RequestKeepsProtocol(w, |requests|, req, |requests| == maxIterations - 1)
    ensures RequestsKeepProtocol(w, requests + [req], maxIterations)
  {
    var longer := requests + [req];
    forall i | 0 <= i < |longer| ensures RequestKeepsProtocol(w, i, longer[i], i == maxIterations - 1) {
      if i < |requests| { assert RequestKeepsProtocol(w, i, requests[i], i == maxIterations - 1); }
    }
  }

  /** Pruning drops the oldest exchanges. */
  lemma PrunedExchange(all: seq<Message>, pairs: nat, j: nat)
    requires |all| == 2 * pairs + 1 && j < Kept(pairs)
    ensures |Prune(all, MAX_PAIRS)| == 2 * Kept(pairs) + 1
    ensures Prune(all, MAX_PAIRS)[2 * j + 1] == all[2 * (pairs - Kept(pairs) + j) + 1]
  {
  }

  /** One more exchange, and the oldest one pruned away. */
  lemma NextReady(w: World, n: nat, messages: seq<Message>, replies: seq<ToolResult>)
    requires Ready(w, n, messages) && w.respond(n).Reply?
    requires Answers(Assistant(w.respond(n).calls), ToolResults(replies))
    ensures Ready(w, n + 1, Prune(messages + [Assistant(w.respond(n).calls), ToolResults(replies)], MAX_PAIRS))
  {
    var all := messages + [Assistant(w.respond(n).calls), ToolResults(replies)];
    PairedSnoc(messages, Assistant(w.respond(n).calls), ToolResults(replies));
    PruneKeepsPairs(all, MAX_PAIRS);
    PrunedExchange(all, Kept(n) + 1, 0);
    NextCarries(w, n, messages, all);
  }

  lemma NextCarries(w: World, n: nat, messages: seq<Message>, all: seq<Message>)
    requires Carries(w, n, messages) && messages <= all && |messages| == 2 * Kept(n) + 1 && |all| == |messages| + 2
    requires w.respond(n).Reply? && all[|messages|] == Assistant(w.respond(n).calls)
    ensures Carries(w, n + 1, Prune(all, MAX_PAIRS))
  {
    var n', pairs, next := n + 1, Kept(n) + 1, Prune(all, MAX_PAIRS);
    PrunedExchange(all, pairs, 0);
    forall j | 0 <= j < Kept(n') ensures Repeated(w, n', next, j) {
      PrunedExchange(all, pairs, j);
      var k := pairs - Kept(pairs) + j;
      if k < Kept(n) { assert Repeated(w, n, messages, k) && all[2 * k + 1] == messages[2 * k + 1]; }
    }
  }

  lemma AskKeepsFacts(
    e: Config, records: Cooldowns, s: Settings, w: World, messages: seq<Message>,
    r: RunResult, trace: seq<Step>, requests: seq<Request>, us: seq<Usage>)
    requires RunFacts(e, records, s, w, r, trace, requests, us) && Ready(w, |us|, messages)
    requires |requests| == |us| < s.Iterations() && s.tokenBudget < 0x8000_0000_0000_0000
    requires !OverBudget(r, s.Budget())
    ensures var last := |us| == s.Iterations() - 1;
            var req := Request(Prompt(messages, last), Ask(r, s.Budget()), !last);
            RunFacts(e, records, s, w, r, trace, requests + [req], us)
  {
    var last := |us| == s.Iterations() - 1;
    var req := Request(Prompt(messages, last), Ask(r, s.Budget()), !last);
    PromptKeepsProtocol(w, |us|, messages, Ask(r, s.Budget()), last);
    RequestSnoc(w, requests, s.Iterations(), req);
    AskIsWithinBudget(requests, us, r, s.Budget(), req);
  }

  lemma SpendKeepsInvariant(
    e: Config, records: Cooldowns, s: Settings, w: World, r: RunResult, trace: seq<Step>, u: Usage)
    requires RunInvariant(e, records, s, w, r, trace)
    ensures RunInvariant(e, records, s, w, Spend(r, u), trace)
  {
    assert Audited(Spend(r, u), trace);
  }

  lemma ReplyWithoutCalls(
    e: Config, records: Cooldowns, s: Settings, w: World,
    r: RunResult, trace: seq<Step>, requests: seq<Request>, us: seq<Usage>)
    requires RunFacts(e, records, s, w, r, trace, requests, us) && |requests| == |us| + 1
    requires w.respond(|us|).Reply? && w.respond(|us|).calls == []
    ensures var u := w.respond(|us|).usage;
            RunFacts(e, records, s, w, Spend(r, u), trace, requests, us + [u])
  {
    var u := w.respond(|us|).usage;
    SpendKeepsInvariant(e, records, s, w, r, trace, u);
    ReplyWithCalls(e, s, w, r, Spend(r, u), records, records, trace, trace, requests, us);
  }

  lemma ReplyWithCalls(
    e: Config, s: Settings, w: World, r: RunResult, r': RunResult, records: Cooldowns, records': Cooldowns,
    trace: seq<Step>, trace': seq<Step>, requests: seq<Request>, us: seq<Usage>)
    requires RunFacts(e, records, s, w, r, trace, requests, us) && |requests| == |us| + 1
    requires w.respond(|us|).Reply?
    requires SameRun(r', Spend(r, w.respond(|us|).usage))
    requires RunInvariant(e, records', s, w, r', trace')
    requires trace <= trace' && Handles(trace', |trace|, w.respond(|us|).calls)
    ensures RunFacts(e, records', s, w, r', trace', requests, us + [w.respond(|us|).usage])
  {
    var u := w.respond(|us|).usage;
    UseIsWithinBudget(requests, us, s.Budget(), u);
    SpendKeepsTotals(r, us, u);
    HandlesConcat(trace, Asked(w, |us|), trace', w.respond(|us|).calls);
  }

  lemma HandlesConcat(trace: seq<Step>, calls: seq<ToolCall>, trace': seq<Step>, more: seq<ToolCall>)
    requires Handles(trace, 0, calls) && trace <= trace' && Handles(trace', |trace|, more)
    ensures Handles(trace', 0, calls + more)
  {
    var all := calls + more;
    forall i | 0 <= i < |all|
      ensures trace'[i].record.tool == all[i].name
      ensures trace'[i].record.target == ExtractTarget(all[i].args, all[i].printed)
    {
      if i < |calls| {
        assert trace'[i] == trace[0 + i];
      } else {
        assert trace'[|trace| + (i - |calls|)].record.tool == more[i - |calls|].name;
      }
    }
  }

  /** The reply of iteration `i` asks for tool calls. */
  predicate GoesOn(w: World, i: nat) { w.respond(i).Reply? && w.respond(i).calls != [] }

  predicate AllGoOn(w: World, n: nat) { forall i :: 0 <= i < n ==> GoesOn(w, i) }

  /** Why iteration `n` ends the loop; None when it asked for tool calls and does not. */
  ghost predicate StopFollows(
    w: World, s: Settings, n: nat, r: RunResult, requests: seq<Request>, us: seq<Usage>, stop: Option<Ending>)
  {
    match stop
    case Some(BudgetSpent) => |requests| == |us| == n && OverBudget(r, s.Budget())
    case Some(ProviderFailed) => |requests| == n + 1 && |us| == n && w.respond(n).ProviderError?
    case Some(FinalAnswer(text)) =>
      |requests| == |us| == n + 1 && w.respond(n).Reply? && w.respond(n).calls == [] && w.respond(n).content == text
    case None => |requests| == |us| == n + 1 && GoesOn(w, n)
  }

  /** One iteration of the loop: None to go on, or how the loop ends. */
  method Turn(eng: ActionEngine, s: Settings, w: World, n: nat, messages0: seq<Message>, r0: RunResult,
              ghost trace0: seq<Step>, ghost requests0: seq<Request>, ghost us0: seq<Usage>)
    returns (stop: Option<Ending>, messages: seq<Message>, r: RunResult,
             ghost trace: seq<Step>, ghost requests: seq<Request>, ghost us: seq<Usage>)
    requires w.ClockRuns() && s.tokenBudget < 0x8000_0000_0000_0000
    requires RunFacts(eng.config, eng.cooldowns, s, w, r0, trace0, requests0, us0)
    requires n == |requests0| == |us0| < s.Iterations() && Ready(w, n, messages0)
    modifies eng`cooldowns
    ensures RunFacts(eng.config, eng.cooldowns, s, w, r, trace, requests, us)
    ensures r.iterations == n + 1 && Initial(trace, eng.cooldowns) == Initial(trace0, old(eng.cooldowns))
    ensures StopFollows(w, s, n, r, requests, us, stop)
    ensures stop.None? && n + 1 < s.Iterations() ==> Ready(w, n + 1, messages)
  {
    messages, trace, requests, us := messages0, trace0, requests0, us0;
    r := r0.(iterations := n + 1);
    if OverBudget(r, s.Budget()) {
      return Some(BudgetSpent), messages, r, trace, requests, us;
    }
    var last := n == s.Iterations() - 1;
    messages := Prompt(messages, last);
    AskKeepsFacts(eng.config, eng.cooldowns, s, w, messages0, r, trace, requests, us);
    requests := requests + [Request(messages, Ask(r, s.Budget()), !last)];
    var reply := w.respond(n);
    if reply.ProviderError? {
      return Some(ProviderFailed), messages, r, trace, requests, us;
    }
    if reply.calls == [] {
      ReplyWithoutCalls(eng.config, eng.cooldowns, s, w, r, trace, requests, us);
      r := Spend(r, reply.usage);
      us := us + [reply.usage];
      return Some(FinalAnswer(reply.content)), messages, r, trace, requests, us;
    }
    ghost var before := eng.cooldowns;
    var replies, r';
    r', replies, trace := ProcessCalls(eng, s, w, reply.calls, Spend(r, reply.usage), trace);
    ReplyWithCalls(eng.config, s, w, r, r', before, eng.cooldowns, trace0, trace, requests, us);
    r := r';
    us := us + [reply.usage];
    if !last {
      NextReady(w, n, messages, replies);
    }
    messages := Prune(messages + [Assistant(reply.calls), ToolResults(replies)], MAX_PAIRS);
    stop := None;
  }

  lemma FactsAreSafe(e: Config, s: Settings, trace: seq<Step>)
    requires Follows(e, s, trace)
    ensures SafeRun(e, trace)
  {
    forall i | 0 <= i < |trace| ensures Safe(e, trace[i]) {
      assert StepFollows(e, s, trace[i]);
      FollowedStepIsSafe(e, s, trace[i]);
    }
  }

  lemma FactsAreTabled(e: Config, s: Settings, w: World, trace: seq<Step>)
    requires Follows(e, s, trace) && AllObserved(w, trace)
    ensures AllTabled(e, s, w, trace)
  {
    forall i | 0 <= i < |trace| ensures AsTabled(e, s, w, i, trace[i]) {
      assert StepFollows(e, s, trace[i]) && Observed(w, i, trace[i]);
      StepIsAsTabled(e, s, w, i, trace[i]);
    }
  }

  lemma SpentIsUsed(r: RunResult, us: seq<Usage>, budget: int)
    requires Totals(r, us) && OverBudget(r, budget)
    ensures Reported(us) ==> Used(us) >= budget
  {
    if Reported(us) { UsedNonNegative(us); }
  }

  lemma StartFacts(e: Config, records: Cooldowns, s: Settings, w: World)
    ensures RunFacts(e, records, s, w, START, [], [], []) && Ready(w, 0, [Task])
  {
    assert Audited(START, []) && Spaced(e, []) && Remembers(e, records, []);
    assert WithinBudget([], [], s.Budget()) && Totals(START, []);
  }

  /** Between two iterations. */
  ghost predicate Midway(
    e: Config, records: Cooldowns, s: Settings, w: World, n: nat, messages: seq<Message>,
    r: RunResult, trace: seq<Step>, requests: seq<Request>, us: seq<Usage>)
  {
    && n == r.iterations == |requests| == |us| <= s.Iterations()
    && AllGoOn(w, n)
    && (n < s.Iterations() ==> Ready(w, n, messages))
    && RunFacts(e, records, s, w, r, trace, requests, us)
  }

  lemma OneMoreTurn(
    e: Config, records: Cooldowns, s: Settings, w: World, n: nat, messages: seq<Message>,
    r: RunResult, trace: seq<Step>, requests: seq<Request>, us: seq<Usage>)
    requires n < s.Iterations() && r.iterations == n + 1 && AllGoOn(w, n)
    requires StopFollows(w, s, n, r, requests, us, None)
    requires n + 1 < s.Iterations() ==> Ready(w, n + 1, messages)
    requires RunFacts(e, records, s, w, r, trace, requests, us)
    ensures Midway(e, records, s, w, n + 1, messages, r, trace, requests, us)
  {
  }

  const START: RunResult := RunResult([], Succeeded, 0, 0, 0, 0, 0, 0)

  /** The iterations, up to the one that ends the loop. */
  method Converse(eng: ActionEngine, s: Settings, w: World)
    returns (r: RunResult, stop: Option<Ending>, ghost trace: seq<Step>, ghost requests: seq<Request>, ghost us: seq<Usage>)
    requires w.ClockRuns() && s.tokenBudget < 0x8000_0000_0000_0000
    modifies eng`cooldowns
    ensures 1 <= r.iterations <= s.Iterations() && (stop.None? ==> r.iterations == s.Iterations())
    ensures StopFollows(w, s, r.iterations - 1, r, requests, us, stop)
    ensures AllGoOn(w, r.iterations - 1)
    ensures RunFacts(eng.config, eng.cooldowns, s, w, r, trace, requests, us)
    ensures Initial(trace, eng.cooldowns) == old(eng.cooldowns)
  {
    var messages := [Task];
    r, trace, requests, us := START, [], [], [];
    StartFacts(eng.config, eng.cooldowns, s, w);
    stop := None;
    var iteration := 0;
    while iteration < s.Iterations()
      invariant Midway(eng.config, eng.cooldowns, s, w, iteration, messages, r, trace, requests, us)
      invariant Initial(trace, eng.cooldowns) == old(eng.cooldowns)
      invariant stop.None? && (iteration > 0 ==> StopFollows(w, s, iteration - 1, r, requests, us, None))
    {
      stop, messages, r, trace, requests, us := Turn(eng, s, w, iteration, messages, r, trace, requests, us);
      if stop.Some? {
        break;
      }
      OneMoreTurn(eng.config, eng.cooldowns, s, w, iteration, messages, r, trace, requests, us);
      iteration := iteration + 1;
    }
  }

  /** What every run guarantees. */
  ghost predicate Guarantees(
    e: Config, s: Settings, w: World, r: RunResult, trace: seq<Step>, requests: seq<Request>, us: seq<Usage>)
  {
    // one record per tool call, in order, numbered and counted
    && Audited(r, trace) && Handles(trace, 0, Asked(w, |us|))
    // every call is decided by the engine, answered by the world and recorded as the table says
    && Follows(e, s, trace) && AllObserved(w, trace) && AllTabled(e, s, w, trace)
    // what ran was allowed or approved, and cooldowns were kept
    && SafeRun(e, trace) && Spaced(e, trace) && ExecutionsSpaced(e, trace)
    && (trace != [] && trace[0].seen == map[] ==> AllCooledExactly(e, trace))
    // every request keeps the protocol and the budget
    && RequestsKeepProtocol(w, requests, s.Iterations()) && WithinBudget(requests, us, s.Budget())
    && UsageOf(w, us) && Totals(r, us) && UsageBounded(requests, us, s.Budget())
  }

  lemma FactsGiveGuarantees(
    e: Config, records: Cooldowns, s: Settings, w: World,
    r: RunResult, phase: RunPhase, trace: seq<Step>, requests: seq<Request>, us: seq<Usage>)
    requires w.ClockRuns() && RunFacts(e, records, s, w, r, trace, requests, us)
    ensures Guarantees(e, s, w, r.(phase := phase), trace, requests, us)
  {
    SpacedExecutions(e, trace);
    if trace != [] && trace[0].seen == map[] { CooledExactly(e, w, trace); }
    FactsAreSafe(e, s, trace);
    FactsAreTabled(e, s, w, trace);
    TotalUsageBound(requests, us, s.Budget());
  }

  /** The conversation loop, for every LLM, approver, tool outcome and non-decreasing clock. */
  method ConversationLoop(eng: ActionEngine, s: Settings, w: World)
    returns (r: RunResult, stop: Option<Ending>, ghost trace: seq<Step>, ghost requests: seq<Request>, ghost us: seq<Usage>)
    requires w.ClockRuns() && s.tokenBudget < 0x8000_0000_0000_0000
    modifies eng`cooldowns
    ensures 1 <= r.iterations <= s.Iterations() && (stop.None? ==> r.iterations == s.Iterations())
    ensures StopFollows(w, s, r.iterations - 1, r, requests, us, stop)
    ensures AllGoOn(w, r.iterations - 1)
    ensures Guarantees(eng.config, s, w, r, trace, requests, us)
    ensures PhaseFollows(r, stop, s.Iterations())
    ensures trace != [] ==> trace[0].seen == old(eng.cooldowns)
    ensures stop == Some(BudgetSpent) && Reported(us) ==> Used(us) >= s.Budget()
  {
    r, stop, trace, requests, us := Converse(eng, s, w);
    if stop == Some(BudgetSpent) { SpentIsUsed(r, us, s.Budget()); }
    var phase := FinalPhase(r, stop, s.Iterations());
    FactsGiveGuarantees(eng.config, eng.cooldowns, s, w, r, phase, trace, requests, us);
    r := r.(phase := phase);
  }
}
