/** Values shared by the guardrail engine, the runner and the retention controller. */
module Types {

  datatype Option<+T> = None | Some(value: T)

  datatype Result<+T> = Ok(value: T) | Err

  datatype Tier = Read | ServiceMutation | DestructiveMutation | DataMutation

  datatype Autonomy = Observe | Recommend | AutomateSafe | AutomateDestructive | UnknownAutonomy

  datatype ActionStatus =
    Executed | Blocked | Failed | Skipped | Approved | Denied | PendingApproval

  datatype RunPhase = Pending | Running | Succeeded | RunFailed | Escalated | RunBlocked

  /** The phase of an approval request; NoPhase is the empty string. */
  datatype ApprovalPhase = NoPhase | PhasePending | PhaseApproved | PhaseDenied | PhaseExpired

  datatype ApprovalResult = ApprovalResult(approved: bool, phase: ApprovalPhase, decidedBy: string, reason: string)

  /** Go's conversion to int32: keep the low 32 bits. */
  function Int32(x: int): (r: int)
    ensures -0x8000_0000 <= r < 0x8000_0000
    ensures -0x8000_0000 <= x < 0x8000_0000 ==> r == x
  {
    (x + 0x8000_0000) % 0x1_0000_0000 - 0x8000_0000
  }

  /** Go's int64 arithmetic wraps. */
  function Int64(x: int): (r: int)
    ensures -0x8000_0000_0000_0000 <= r < 0x8000_0000_0000_0000
    ensures -0x8000_0000_0000_0000 <= x < 0x8000_0000_0000_0000 ==> r == x
  {
    (x + 0x8000_0000_0000_0000) % 0x1_0000_0000_0000_0000 - 0x8000_0000_0000_0000
  }
}
