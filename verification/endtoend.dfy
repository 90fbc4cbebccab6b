/** Whole runs: the arguments of every tool call, the engine's decisions and the approval protocol together. */
module EndToEnd {
  import opened Types
  import opened Targets
  import opened Kubectl
  import opened Conversation
  import opened Engine
  import opened Runner
  import Protection
  import Approval

  /** The call deletes a volume claim, a volume, a namespace or a database cluster. */
  predicate DeletesData(call: ToolCall) {
    call.name == "kubectl.delete" && HasStr(call.args, "resource") && HoldsData(ResourceToGVR(call.args["resource"].s))
  }

  /** No run executes such a call or sends it for approval, whatever the LLM asks for. */
  lemma NoRunDeletesData(
    e: Config, s: Settings, w: World, r: RunResult, trace: seq<Step>, requests: seq<Request>, us: seq<Usage>)
    requires Guarantees(e, s, w, r, trace, requests, us)
    ensures var calls := Asked(w, |us|);
            && |calls| == |trace| == |r.actions|
            && forall i :: 0 <= i < |calls| && DeletesData(calls[i]) ==>
                 !trace[i].ran && trace[i].approval == None && r.actions[i].status == Blocked
  {
    var calls := Asked(w, |us|);
    forall i | 0 <= i < |calls| && DeletesData(calls[i])
      ensures !trace[i].ran && trace[i].approval == None && r.actions[i].status == Blocked
    {
      var t := trace[i];
      assert t == trace[0 + i] && StepFollows(e, s, t);
      Protection.ProtectedKindsNeverDeleted(e, t.seen, calls[i].args, calls[i].printed, t.checkedAt, t.decision);
    }
  }

  /** What RequestApproval returns when the request cannot be created. */
  const NOT_CREATED: ApprovalReply := ApprovalReply(None, true)

  /** `reply` is what RequestApproval returned at the end of this run of the protocol. */
  ghost predicate Returned(reply: ApprovalReply, states: seq<Approval.State>, labels: seq<Approval.Label>) {
    && Approval.Run(states, labels)
    && var last := states[|states| - 1].requester;
    && last.Done?
    && reply == ApprovalReply(Some(last.result), last.cancelled)
  }

  /** A decider had approved, in a poll that began by the deadline. */
  ghost predicate ApprovedInTime(states: seq<Approval.State>) {
    && states != []
    && var last := states[|states| - 1];
    && last.requester.Done? && last.requester.result.phase == PhaseApproved
    && last.requester.checkedAt <= states[0].deadline
    && exists k :: Approval.DecidedAt(last.versions, k, last.requester.result)
  }

  /** The run of the approval protocol behind call `i`. */
  datatype Protocols = Protocols(states: nat -> seq<Approval.State>, labels: nat -> seq<Approval.Label>)

  /**
   * In a whole run, every call that ran without the autonomy for it had passed the data layers and
   * been approved in time by a decider of its own request.
   */
  lemma UnauthorisedRunsWereApproved(
    e: Config, s: Settings, w: World, r: RunResult, trace: seq<Step>, requests: seq<Request>, us: seq<Usage>, ps: Protocols)
    requires Guarantees(e, s, w, r, trace, requests, us)
    requires forall i :: 0 <= i < |trace| && trace[i].approval.Some? ==>
               w.approve(i) == NOT_CREATED || Returned(w.approve(i), ps.states(i), ps.labels(i))
    ensures forall i :: 0 <= i < |trace| && trace[i].ran ==>
              && DataClear(ChecksAt(e, trace[i]))
              && (Unlocks(e.guardrails.autonomy, trace[i].decision.tier) || ApprovedInTime(ps.states(i)))
  {
    forall i | 0 <= i < |trace| && trace[i].ran
      ensures DataClear(ChecksAt(e, trace[i]))
      ensures Unlocks(e.guardrails.autonomy, trace[i].decision.tier) || ApprovedInTime(ps.states(i))
    {
      assert StepFollows(e, s, trace[i]) && Observed(w, i, trace[i]);
      StepWasApproved(e, s, w, i, trace[i], ps.states(i), ps.labels(i));
    }
  }

  lemma StepWasApproved(
    e: Config, s: Settings, w: World, i: nat, t: Step, states: seq<Approval.State>, labels: seq<Approval.Label>)
    requires StepFollows(e, s, t) && Observed(w, i, t) && t.ran
    requires t.approval.Some? ==> w.approve(i) == NOT_CREATED || Returned(w.approve(i), states, labels)
    ensures DataClear(ChecksAt(e, t))
    ensures Unlocks(e.guardrails.autonomy, t.decision.tier) || ApprovedInTime(states)
  {
    FollowedStepIsSafe(e, s, t);
    AutonomyLadder(e.guardrails.autonomy, t.decision.tier);
    if !t.decision.allowed {
      Approval.ReportedDecisionWasMade(states, labels, |states| - 1);
    }
  }
}
