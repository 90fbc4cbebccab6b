/** The message list sent to the LLM provider, its pruning, and the token budget of each call. */
module Conversation {
  import opened Types
  import opened Targets

  datatype ToolCall = ToolCall(id: string, name: string, args: Args, printed: string)

  datatype ToolResult = ToolResult(toolCallID: string, isError: bool)

  datatype Message =
    | Task
    | Nudge
    | Assistant(calls: seq<ToolCall>)
    | ToolResults(results: seq<ToolResult>)

  const MAX_PAIRS: nat := 4

  /** pruneConversation: keep the first message and the last `keepPairs` pairs. */
  function Prune(messages: seq<Message>, keepPairs: nat): seq<Message> {
    if |messages| <= keepPairs * 2 + 1 then messages
    else [messages[0]] + messages[|messages| - keepPairs * 2..]
  }

  /** `r` answers the calls of `a` one for one, in order. */
  predicate Answers(a: Message, r: Message) {
    && a.Assistant? && r.ToolResults?
    && |a.calls| == |r.results|
    && forall i :: 0 <= i < |a.calls| ==> r.results[i].toolCallID == a.calls[i].id
  }

  /** The task, then pairs of an assistant message and the results that answer it. */
  predicate Paired(ms: seq<Message>) {
    && |ms| % 2 == 1
    && ms[0] == Task
    && forall i :: 0 <= i < |ms| / 2 ==> Answers(ms[2 * i + 1], ms[2 * i + 2])
  }

  /**
   * What a provider accepts: the task comes first, results directly follow the assistant message
   * whose calls they answer, and no call is left unanswered.
   */
  predicate Protocol(ms: seq<Message>) {
    && ms != [] && ms[0] == Task
    && forall i :: 0 <= i < |ms| ==>
         && (ms[i].ToolResults? ==> i > 0 && Answers(ms[i - 1], ms[i]))
         && (ms[i].Assistant? ==> i + 1 < |ms| && Answers(ms[i], ms[i + 1]))
  }

  lemma PairedAt(ms: seq<Message>, i: nat)
    requires Paired(ms) && 0 < i < |ms|
    ensures i % 2 == 1 ==> i + 1 < |ms| && Answers(ms[i], ms[i + 1])
    ensures i % 2 == 0 ==> Answers(ms[i - 1], ms[i])
  {
    if i % 2 == 1 {
      assert Answers(ms[2 * (i / 2) + 1], ms[2 * (i / 2) + 2]);
    } else {
      assert Answers(ms[2 * (i / 2 - 1) + 1], ms[2 * (i / 2 - 1) + 2]);
    }
  }

  /** A paired list keeps the protocol, also with the closing nudge appended. */
  lemma PairedIsProtocol(ms: seq<Message>)
    requires Paired(ms)
    ensures Protocol(ms) && Protocol(ms + [Nudge])
  {
    forall i | 0 <= i < |ms|
      ensures ms[i].ToolResults? ==> i > 0 && Answers(ms[i - 1], ms[i])
      ensures ms[i].Assistant? ==> i + 1 < |ms| && Answers(ms[i], ms[i + 1])
    {
      if i > 0 { PairedAt(ms, i); }
    }
    ProtocolThenNudge(ms);
  }

  lemma ProtocolThenNudge(ms: seq<Message>)
    requires Protocol(ms)
    ensures Protocol(ms + [Nudge])
  {
    var nudged := ms + [Nudge];
    forall i | 0 <= i < |nudged|
      ensures nudged[i].ToolResults? ==> i > 0 && Answers(nudged[i - 1], nudged[i])
      ensures nudged[i].Assistant? ==> i + 1 < |nudged| && Answers(nudged[i], nudged[i + 1])
    {
      if i < |ms| {
        assert nudged[i] == ms[i];
      }
    }
  }

  lemma ProtocolThenPair(ms: seq<Message>, a: Message, r: Message)
    requires Protocol(ms) && Answers(a, r)
    ensures Protocol(ms + [a, r])
  {
    var longer := ms + [a, r];
    forall i | 0 <= i < |longer|
      ensures longer[i].ToolResults? ==> i > 0 && Answers(longer[i - 1], longer[i])
      ensures longer[i].Assistant? ==> i + 1 < |longer| && Answers(longer[i], longer[i + 1])
    {
      if i < |ms| {
        assert longer[i] == ms[i];
      }
    }
  }

  lemma PairedSnoc(ms: seq<Message>, a: Message, r: Message)
    requires Paired(ms) && Answers(a, r)
    ensures Paired(ms + [a, r])
  {
    var longer := ms + [a, r];
    forall i | 0 <= i < |longer| / 2 ensures Answers(longer[2 * i + 1], longer[2 * i + 2]) {
      if i < |ms| / 2 {
        assert Answers(ms[2 * i + 1], ms[2 * i + 2]);
      }
    }
  }

  /** Pruning a paired list keeps it paired and bounded: no result loses its call. */
  lemma PruneKeepsPairs(ms: seq<Message>, keepPairs: nat)
    requires Paired(ms)
    ensures Paired(Prune(ms, keepPairs)) && |Prune(ms, keepPairs)| <= 2 * keepPairs + 1
  {
    var pruned := Prune(ms, keepPairs);
    if |ms| > keepPairs * 2 + 1 {
      var cut := |ms| - keepPairs * 2;
      forall i | 0 <= i < |pruned| / 2 ensures Answers(pruned[2 * i + 1], pruned[2 * i + 2]) {
        PairedAt(ms, cut + 2 * i);
      }
    }
  }

  /**
   * After the nudge the list is no longer paired, and the prune that follows a tool call made in
   * spite of the nudge keeps the protocol exactly when fewer than three pairs came before.
   */
  lemma PruneAfterNudge(ms: seq<Message>, a: Message, r: Message)
    requires Paired(ms) && Answers(a, r)
    ensures Protocol(Prune(ms + [Nudge, a, r], MAX_PAIRS)) <==> |ms| / 2 < 3
  {
    var all := ms + [Nudge, a, r];
    var pruned := Prune(all, MAX_PAIRS);
    if |ms| / 2 < 3 {
      PairedIsProtocol(ms);
      ProtocolThenPair(ms + [Nudge], a, r);
      assert pruned == ms + [Nudge] + [a, r];
    } else {
      var cut := |all| - 8;
      PairedAt(ms, cut);
      assert pruned[1] == ms[cut];
      assert pruned[0] == Task;
    }
  }

  // ---------------------------------------------------------------- tokens

  const PER_CALL_CAP: int := 8192

  /** capMaxTokens. */
  function CapMaxTokens(remaining: int): int {
    if remaining <= 0 then PER_CALL_CAP
    else if remaining > PER_CALL_CAP then PER_CALL_CAP
    else remaining
  }

  /** Narrowing to int32 before capping never grants more than what is left. */
  lemma CapWithinRemaining(remaining: int)
    ensures 1 <= CapMaxTokens(Int32(remaining)) <= PER_CALL_CAP
    ensures 0 < remaining ==> CapMaxTokens(Int32(remaining)) <= remaining
  {
  }

  /** What a call may use of the remaining tokens: the low 32 bits, if they are less than the cap. */
  function Allowance(remaining: int): int {
    var low := remaining % 0x1_0000_0000;
    if 0 < low < 8192 then low else 8192
  }

  lemma CapIsAllowance(remaining: int)
    ensures CapMaxTokens(Int32(remaining)) == Allowance(remaining)
  {
    var low := remaining % 0x1_0000_0000;
    assert Int32(remaining) == if low < 0x8000_0000 then low else low - 0x1_0000_0000;
  }

  datatype Usage = Usage(inTokens: int, outTokens: int)

  datatype Request = Request(messages: seq<Message>, maxTokens: int, offersTools: bool)

  function SumIn(us: seq<Usage>): int {
    if us == [] then 0 else SumIn(us[..|us| - 1]) + us[|us| - 1].inTokens
  }

  function SumOut(us: seq<Usage>): int {
    if us == [] then 0 else SumOut(us[..|us| - 1]) + us[|us| - 1].outTokens
  }

  function Used(us: seq<Usage>): int { SumIn(us) + SumOut(us) }

  /** Usage as providers report it: non-negative, with a total that fits an int64. */
  predicate Reported(us: seq<Usage>) {
    && (forall i :: 0 <= i < |us| ==> us[i].inTokens >= 0 && us[i].outTokens >= 0)
    && Used(us) < 0x8000_0000_0000_0000
  }

  lemma {:induction false} UsedNonNegative(us: seq<Usage>)
    requires forall i :: 0 <= i < |us| ==> us[i].inTokens >= 0 && us[i].outTokens >= 0
    ensures SumIn(us) >= 0 && SumOut(us) >= 0
  {
    if us != [] { UsedNonNegative(us[..|us| - 1]); }
  }

  lemma ReportedPrefix(us: seq<Usage>, u: Usage)
    requires Reported(us + [u])
    ensures Reported(us) && SumIn(us) >= 0 && SumOut(us) >= 0 && u.inTokens >= 0 && u.outTokens >= 0
    ensures Used(us + [u]) == Used(us) + u.inTokens + u.outTokens
  {
    assert (us + [u])[..|us|] == us;
    assert forall i :: 0 <= i < |us| ==> us[i] == (us + [u])[i];
    assert (us + [u])[|us|] == u;
    UsedNonNegative(us);
  }

  /** Each request asks for between 1 and 8192 tokens and, if usage is reported sanely, never for more than is left. */
  ghost predicate WithinBudget(requests: seq<Request>, us: seq<Usage>, budget: int) {
    && |us| <= |requests| <= |us| + 1
    && (forall i :: 0 <= i < |requests| ==> 1 <= requests[i].maxTokens <= PER_CALL_CAP)
    && (Reported(us) ==>
          forall i :: 0 <= i < |requests| ==>
            requests[i].maxTokens == Allowance(budget - Used(us[..i])) <= budget - Used(us[..i]))
  }

  /** No reply is longer than its request allowed. */
  predicate KeepsToLimits(requests: seq<Request>, us: seq<Usage>) {
    |us| <= |requests| && forall i :: 0 <= i < |us| ==> us[i].outTokens <= requests[i].maxTokens
  }

  /** If no reply is longer than it was allowed to be, only the last prompt can overrun the budget. */
  ghost predicate UsageBounded(requests: seq<Request>, us: seq<Usage>, budget: int) {
    Reported(us) && us != [] && KeepsToLimits(requests, us) ==> Used(us) <= budget + us[|us| - 1].inTokens
  }

  lemma TotalUsageBound(requests: seq<Request>, us: seq<Usage>, budget: int)
    requires WithinBudget(requests, us, budget)
    ensures UsageBounded(requests, us, budget)
  {
    if Reported(us) && us != [] && KeepsToLimits(requests, us) {
      var n := |us| - 1;
      assert requests[n].maxTokens <= budget - Used(us[..n]);
    }
  }
}
