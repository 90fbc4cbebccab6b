/**
 * The approval protocol: a requester polls an approval request while people decide it and the
 * requester may expire it. The request lives in a store with optimistic versions; every read may
 * return the newest version or any earlier one.
 */
module Approval {
  import opened Types

  /** Who wrote a version. */
  datatype Writer = Creator | Decider | Expirer

  datatype Version = Version(phase: ApprovalPhase, decidedBy: string, reason: string, writer: Writer)

  /** A decision in flight: the version it was read from, and what will be written. */
  datatype Draft = Draft(readAt: nat, phase: ApprovalPhase, decidedBy: string, reason: string)

  datatype Requester =
    | Polling
    | Fetching(checkedAt: int)
    | ExpiryRead(cancelled: bool)
    | ExpiryWrite(readAt: nat, cancelled: bool)
    | Done(result: ApprovalResult, cancelled: bool, checkedAt: int)

  datatype State = State(
    clock: int,
    deadline: int,
    versions: seq<Version>,
    requester: Requester,
    drafts: set<Draft>,
    lateTicks: nat)

  /** The first version carries Pending, or nothing when the API server dropped the initial status. */
  ghost predicate Init(s: State) {
    && |s.versions| == 1
    && s.versions[0].writer == Creator && s.versions[0].phase in {PhasePending, NoPhase}
    && s.requester == Polling
    && s.drafts == {}
    && s.lateTicks == 0
  }

  function Last(s: State): nat
    requires s.versions != []
  {
    |s.versions| - 1
  }

  // ---------------------------------------------------------------- steps

  datatype Label =
    | Advance(to: int)
    | Tick
    | Fetch(v: nat)
    | FetchFails
    | Cancel
    | ExpireRead(v: nat)
    | ExpireReadFails
    | ExpireWrite(fails: bool)
    | DecideRead(draft: Draft, checks: bool)
    | DecideWrite(draft: Draft, fails: bool)

  /** Phases in which a request is still open. */
  predicate Undecided(p: ApprovalPhase) { p == NoPhase || p == PhasePending }

  predicate IsDecision(p: ApprovalPhase) { p == PhaseApproved || p == PhaseDenied }

  predicate Enabled(s: State, l: Label) {
    match l
    case Advance(to) => to >= s.clock
    case Tick => s.requester.Polling?
    case Fetch(v) => s.requester.Fetching? && v < |s.versions|
    case FetchFails => s.requester.Fetching?
    case Cancel => s.requester.Polling?
    case ExpireRead(v) => s.requester.ExpiryRead? && v < |s.versions|
    case ExpireReadFails => s.requester.ExpiryRead?
    case ExpireWrite(_) => s.requester.ExpiryWrite?
    // The command line checks that what it read is undecided; the API server and the dashboard do not.
    case DecideRead(d, checks) =>
      d.readAt < |s.versions| && IsDecision(d.phase) && (checks ==> Undecided(s.versions[d.readAt].phase))
    case DecideWrite(d, _) => d in s.drafts
  }

  function GiveUp(s: State, cancelled: bool): State {
    s.(requester := Done(ApprovalResult(false, PhaseExpired, "", ""), cancelled, s.clock))
  }

  /** What the requester does with the version it fetched. */
  function Conclude(got: Version, checkedAt: int): Requester {
    match got.phase
    case PhaseApproved => Done(ApprovalResult(true, PhaseApproved, got.decidedBy, got.reason), false, checkedAt)
    case PhaseDenied => Done(ApprovalResult(false, PhaseDenied, got.decidedBy, got.reason), false, checkedAt)
    case PhaseExpired => Done(ApprovalResult(false, PhaseExpired, "", ""), false, checkedAt)
    case _ => Polling
  }

  /** A status update is accepted only for the newest version; `fails` is any other failure. */
  function Update(versions: seq<Version>, readAt: nat, version: Version, fails: bool): seq<Version> {
    if !fails && readAt + 1 == |versions| then versions + [version] else versions
  }

  function Apply(s: State, l: Label): State
    requires Enabled(s, l)
  {
    match l
    case Advance(to) => s.(clock := to)
    case Tick =>
      if s.clock > s.deadline then s.(requester := ExpiryRead(false), lateTicks := s.lateTicks + 1)
      else s.(requester := Fetching(s.clock))
    case Fetch(v) => s.(requester := Conclude(s.versions[v], s.requester.checkedAt))
    case FetchFails => s.(requester := Polling)
    case Cancel => s.(requester := ExpiryRead(true))
    case ExpireRead(v) =>
      if s.versions[v].phase == PhasePending then s.(requester := ExpiryWrite(v, s.requester.cancelled))
      else GiveUp(s, s.requester.cancelled)
    case ExpireReadFails => GiveUp(s, s.requester.cancelled)
    case ExpireWrite(fails) =>
      GiveUp(s.(versions := Update(s.versions, s.requester.readAt, Version(PhaseExpired, "", "", Expirer), fails)),
             s.requester.cancelled)
    case DecideRead(d, _) => s.(drafts := s.drafts + {d})
    case DecideWrite(d, fails) =>
      s.(versions := Update(s.versions, d.readAt, Version(d.phase, d.decidedBy, d.reason, Decider), fails),
         drafts := s.drafts - {d})
  }

  /** A run of the protocol: any interleaving of the requester, the deciders and the clock. */
  ghost predicate Run(states: seq<State>, labels: seq<Label>) {
    && |states| == |labels| + 1
    && Init(states[0])
    && forall i :: 0 <= i < |labels| ==> Enabled(states[i], labels[i]) && states[i + 1] == Apply(states[i], labels[i])
  }

  // ---------------------------------------------------------------- safety

  /** Version `i` records this decision, made by a decider. */
  predicate DecidedAt(versions: seq<Version>, i: nat, r: ApprovalResult) {
    i < |versions| && versions[i] == Version(r.phase, r.decidedBy, r.reason, Decider)
  }

  /** Version `i` is a decider's decision, or the expiry of a pending version. */
  predicate HonestAt(versions: seq<Version>, i: nat)
    requires 0 < i < |versions|
  {
    || (IsDecision(versions[i].phase) && versions[i].writer == Decider)
    || (&& versions[i].phase == PhaseExpired && versions[i].writer == Expirer
        && versions[i - 1].phase == PhasePending)
  }

  /** Decisions come from deciders, and expiry only ever replaces a pending version. */
  predicate Honest(versions: seq<Version>) {
    && versions != []
    && Undecided(versions[0].phase)
    && forall i :: 0 < i < |versions| ==> HonestAt(versions, i)
  }

  ghost predicate HonestRequester(s: State) {
    match s.requester
    case Polling => s.lateTicks == 0
    case Fetching(t) => s.lateTicks == 0 && t <= s.deadline
    case ExpiryRead(_) => s.lateTicks <= 1
    case ExpiryWrite(v, _) => s.lateTicks <= 1 && v < |s.versions| && s.versions[v].phase == PhasePending
    case Done(r, cancelled, t) =>
      && s.lateTicks <= 1
      && (r.approved <==> r.phase == PhaseApproved)
      && (IsDecision(r.phase) ==> !cancelled && t <= s.deadline && exists i :: DecidedAt(s.versions, i, r))
  }

  ghost predicate Invariant(s: State) {
    && Honest(s.versions)
    && HonestRequester(s)
    && forall d :: d in s.drafts ==> d.readAt < |s.versions| && IsDecision(d.phase)
  }

  lemma HonestSnoc(versions: seq<Version>, v: Version)
    requires Honest(versions)
    requires || (IsDecision(v.phase) && v.writer == Decider)
             || (v.phase == PhaseExpired && v.writer == Expirer && versions[|versions| - 1].phase == PhasePending)
    ensures Honest(versions + [v])
  {
    var longer := versions + [v];
    forall i | 0 < i < |longer| ensures HonestAt(longer, i) {
      if i < |versions| {
        assert HonestAt(versions, i);
      }
    }
  }

  lemma StepKeepsInvariant(s: State, l: Label)
    requires Invariant(s) && Enabled(s, l)
    ensures Invariant(Apply(s, l))
    ensures s.versions <= Apply(s, l).versions && Apply(s, l).deadline == s.deadline
  {
    var s' := Apply(s, l);
    match l {
      case Fetch(v) =>
        var got := s.versions[v];
        if IsDecision(got.phase) {
          assert HonestAt(s.versions, v);
          assert DecidedAt(s'.versions, v, s'.requester.result);
        }
      case ExpireWrite(fails) =>
        if s.requester.readAt + 1 == |s.versions| {
          HonestSnoc(s.versions, Version(PhaseExpired, "", "", Expirer));
        }
      case DecideWrite(d, fails) =>
        HonestSnoc(s.versions, Version(d.phase, d.decidedBy, d.reason, Decider));
        if s.requester.Done? && IsDecision(s.requester.result.phase) {
          var i :| DecidedAt(s.versions, i, s.requester.result);
          assert DecidedAt(s'.versions, i, s.requester.result);
        }
      case _ =>
    }
  }

  lemma {:induction false} RunKeepsInvariant(states: seq<State>, labels: seq<Label>, i: nat)
    requires Run(states, labels) && i < |states|
    ensures Invariant(states[i])
    ensures states[i].deadline == states[0].deadline
    decreases i
  {
    if i > 0 {
      RunKeepsInvariant(states, labels, i - 1);
      StepKeepsInvariant(states[i - 1], labels[i - 1]);
    }
  }

  lemma {:induction false} VersionsOnlyGrow(states: seq<State>, labels: seq<Label>, i: nat, j: nat)
    requires Run(states, labels) && i <= j < |states|
    ensures states[i].versions <= states[j].versions
    decreases j
  {
    if i < j {
      VersionsOnlyGrow(states, labels, i, j - 1);
      RunKeepsInvariant(states, labels, j - 1);
      StepKeepsInvariant(states[j - 1], labels[j - 1]);
    }
  }

  /**
   * In every interleaving, RequestApproval reports an approval only if a decider had written
   * exactly that approval to the request, in a poll that began by the deadline. The same holds of
   * a denial.
   */
  lemma ReportedDecisionWasMade(states: seq<State>, labels: seq<Label>, i: nat)
    requires Run(states, labels) && i < |states| && states[i].requester.Done?
    ensures var q := states[i].requester;
            && (q.result.approved <==> q.result.phase == PhaseApproved)
            && (IsDecision(q.result.phase) ==>
                  && !q.cancelled && q.checkedAt <= states[0].deadline
                  && exists k :: DecidedAt(states[i].versions, k, q.result))
  {
    RunKeepsInvariant(states, labels, i);
  }

  /** A request that is read in time is reported as it was read, with who decided and why; one still open is polled again. */
  lemma FetchReportsWhatItRead(states: seq<State>, labels: seq<Label>, i: nat)
    requires Run(states, labels) && i < |labels| && labels[i].Fetch?
    ensures labels[i].v < |states[i].versions|
    ensures var got, q := states[i].versions[labels[i].v], states[i + 1].requester;
            && (got.phase in {NoPhase, PhasePending} <==> q == Polling)
            && (got.phase in {PhaseApproved, PhaseDenied} ==>
                  q.Done? && !q.cancelled && q.checkedAt <= states[0].deadline &&
                  q.result == ApprovalResult(got.phase == PhaseApproved, got.phase, got.decidedBy, got.reason))
            && (got.phase == PhaseExpired ==> q.Done? && q.result == ApprovalResult(false, PhaseExpired, "", ""))
  {
    RunKeepsInvariant(states, labels, i);
  }

  /** Expiry never overwrites a decision: what it replaces was pending. */
  lemma ExpiryNeverOverwrites(states: seq<State>, labels: seq<Label>, i: nat, k: nat)
    requires Run(states, labels) && i < |states| && 0 < k < |states[i].versions|
    requires states[i].versions[k].phase == PhaseExpired
    ensures states[i].versions[k].writer == Expirer && states[i].versions[k - 1].phase == PhasePending
  {
    RunKeepsInvariant(states, labels, i);
    assert HonestAt(states[i].versions, k);
  }

  /** A pending request that nobody changed since it was read is marked expired, if the write succeeds. */
  lemma ExpiryMarksPending(states: seq<State>, labels: seq<Label>, i: nat)
    requires Run(states, labels) && i < |labels| && labels[i] == ExpireWrite(false)
    requires states[i].requester.readAt == |states[i].versions| - 1
    ensures states[i + 1].versions == states[i].versions + [Version(PhaseExpired, "", "", Expirer)]
    ensures states[i].versions[|states[i].versions| - 1].phase == PhasePending
  {
    RunKeepsInvariant(states, labels, i);
  }

  /** A request whose initial status was dropped is never marked expired. */
  lemma {:induction false} DroppedStatusNeverExpires(states: seq<State>, labels: seq<Label>, i: nat, k: nat)
    requires Run(states, labels) && i < |states| && k < |states[i].versions|
    requires states[0].versions[0].phase == NoPhase
    ensures states[i].versions[k].phase != PhaseExpired
  {
    RunKeepsInvariant(states, labels, i);
    VersionsOnlyGrow(states, labels, 0, i);
    if k > 0 {
      assert HonestAt(states[i].versions, k);
    }
    if k > 1 {
      assert HonestAt(states[i].versions, k - 1);
    }
  }

  /** The wait ends at the first tick after the deadline: no second late tick ever happens. */
  lemma OneLateTick(states: seq<State>, labels: seq<Label>, i: nat)
    requires Run(states, labels) && i < |labels|
    requires labels[i] == Tick && states[i].clock > states[i].deadline
    ensures forall j :: 0 <= j <= i ==> states[j].lateTicks == 0
    ensures forall j :: i < j < |states| ==>
              states[j].lateTicks == 1 && !states[j].requester.Polling? && !states[j].requester.Fetching?
  {
    forall j | 0 <= j <= i ensures states[j].lateTicks == 0 {
      RunKeepsInvariant(states, labels, i);
      LateTicksGrow(states, labels, j, i);
    }
    forall j | i < j < |states|
      ensures states[j].lateTicks == 1 && !states[j].requester.Polling? && !states[j].requester.Fetching?
    {
      RunKeepsInvariant(states, labels, j);
      LateTicksGrow(states, labels, i + 1, j);
    }
  }

  lemma {:induction false} LateTicksGrow(states: seq<State>, labels: seq<Label>, i: nat, j: nat)
    requires Run(states, labels) && i <= j < |states|
    ensures states[i].lateTicks <= states[j].lateTicks
    decreases j
  {
    if i < j {
      LateTicksGrow(states, labels, i, j - 1);
    }
  }

  // ---------------------------------------------------------------- deciders that check

  /** All the deciders of the run check that what they read is undecided. */
  predicate CheckedDeciders(labels: seq<Label>) {
    forall i :: 0 <= i < |labels| && labels[i].DecideRead? ==> labels[i].checks
  }

  ghost predicate WriteOnce(s: State) {
    && Invariant(s)
    && |s.versions| <= 2
    && (forall d :: d in s.drafts ==> d.readAt == 0)
    && (s.requester.ExpiryWrite? ==> s.requester.readAt == 0)
  }

  lemma {:induction false} CheckedRunWritesOnce(states: seq<State>, labels: seq<Label>, i: nat)
    requires Run(states, labels) && CheckedDeciders(labels) && i < |states|
    ensures WriteOnce(states[i])
    decreases i
  {
    if i > 0 {
      CheckedRunWritesOnce(states, labels, i - 1);
      if |states[i - 1].versions| == 2 {
        assert HonestAt(states[i - 1].versions, 1);
      }
      StepKeepsInvariant(states[i - 1], labels[i - 1]);
    }
  }

  /**
   * If every decider checks, a request is decided or expired at most once, and what the requester
   * reported as a decision is what the store says ever after.
   */
  lemma CheckedDecisionIsFinal(states: seq<State>, labels: seq<Label>, i: nat, j: nat)
    requires Run(states, labels) && CheckedDeciders(labels) && i <= j < |states|
    ensures |states[j].versions| <= 2
    ensures states[i].requester.Done? && IsDecision(states[i].requester.result.phase) ==>
              |states[j].versions| == 2 && DecidedAt(states[j].versions, 1, states[i].requester.result)
  {
    CheckedRunWritesOnce(states, labels, i);
    CheckedRunWritesOnce(states, labels, j);
    VersionsOnlyGrow(states, labels, i, j);
  }

  /** A run may report an approval. */
  lemma ApprovalReported() returns (states: seq<State>, labels: seq<Label>)
    ensures Run(states, labels)
    ensures var q := states[|states| - 1].requester; q.Done? && q.result.approved
  {
    var approve := Draft(0, PhaseApproved, "a", "");
    labels := [DecideRead(approve, true), DecideWrite(approve, false), Tick, Fetch(1)];
    var s0 := State(0, 10, [Version(PhasePending, "", "", Creator)], Polling, {}, 0);
    var s1 := Apply(s0, labels[0]);
    var s2 := Apply(s1, labels[1]);
    var s3 := Apply(s2, labels[2]);
    states := [s0, s1, s2, s3, Apply(s3, labels[3])];
  }

  /**
   * Without the check every decision, also one that the requester has acted on, can still be
   * overturned: any run can go on to store the decision `phase`.
   */
  lemma UncheckedDecisionOverturned(states: seq<State>, labels: seq<Label>, phase: ApprovalPhase)
    returns (states': seq<State>, labels': seq<Label>)
    requires Run(states, labels) && IsDecision(phase)
    ensures Run(states', labels') && states <= states' && labels <= labels'
    ensures var before, after := states[|states| - 1], states'[|states'| - 1];
            after.requester == before.requester && after.versions != [] && after.versions[Last(after)].phase == phase
  {
    var s := states[|states| - 1];
    RunKeepsInvariant(states, labels, |labels|);
    var draft := Draft(Last(s), phase, "", "");
    var s1 := Apply(s, DecideRead(draft, false));
    var s2 := Apply(s1, DecideWrite(draft, false));
    states', labels' := states + [s1, s2], labels + [DecideRead(draft, false), DecideWrite(draft, false)];
    forall i | 0 <= i < |labels'|
      ensures Enabled(states'[i], labels'[i]) && states'[i + 1] == Apply(states'[i], labels'[i])
    {
      if i < |labels| {
        assert states'[i] == states[i] && states'[i + 1] == states[i + 1];
      }
    }
  }

  // ---------------------------------------------------------------- the polling loop itself

  /** The stored request, with the versions it has had. */
  class RequestStore {
    var versions: seq<Version>

    /** A decider's update lands. */
    method Decide(decisions: seq<Version>)
      requires Honest(versions)
      requires ByDeciders(decisions)
      modifies this
      ensures Honest(versions) && versions == old(versions) + decisions
    {
      for i := 0 to |decisions|
        invariant Honest(versions) && versions == old(versions) + decisions[..i]
      {
        HonestSnoc(versions, decisions[i]);
        versions := versions + [decisions[i]];
      }
    }

    method UpdateStatus(readAt: nat, version: Version, fails: bool)
      modifies this
      ensures versions == Update(old(versions), readAt, version, fails)
    {
      if !fails && readAt + 1 == |versions| {
        versions := versions + [version];
      }
    }
  }

  /** What happens around one poll tick. */
  datatype Event = Event(
    now: int,
    cancelled: bool,           // the run's context is done
    decisions: seq<Version>,   // decider updates that land before the read
    stale: Option<nat>,        // how many versions the read lags behind, or a failed read
    meanwhile: seq<Version>,   // decider updates that land between expireRequest's read and write
    fails: bool)               // the expiry write fails for another reason

  predicate ByDeciders(vs: seq<Version>) {
    forall i :: 0 <= i < |vs| ==> IsDecision(vs[i].phase) && vs[i].writer == Decider
  }

  /** The version a read returns. */
  function Read(versions: seq<Version>, stale: nat): (v: nat)
    requires versions != []
    ensures v < |versions| && (stale < |versions| ==> v + stale + 1 == |versions|)
  {
    if stale < |versions| then |versions| - 1 - stale else 0
  }

  /** The newest version was read, it was pending, and nothing came in between. */
  predicate Expires(versions: seq<Version>, e: Event)
    requires versions != []
  {
    && e.stale.Some? && Read(versions, e.stale.value) == |versions| - 1
    && versions[|versions| - 1].phase == PhasePending
    && e.meanwhile == [] && !e.fails
  }

  /** expireRequest: a decision that lands between its read and its write survives. */
  method ExpireRequest(store: RequestStore, e: Event)
    requires Honest(store.versions) && ByDeciders(e.meanwhile)
    modifies store
    ensures Honest(store.versions)
    ensures store.versions == old(store.versions) +
              if Expires(old(store.versions), e) then [Version(PhaseExpired, "", "", Expirer)] else e.meanwhile
  {
    if e.stale.None? {
      store.Decide(e.meanwhile);
      return;
    }
    var readAt := Read(store.versions, e.stale.value);
    var current := store.versions[readAt];
    store.Decide(e.meanwhile);
    if current.phase != PhasePending {
      return;
    }
    if readAt + 1 == |store.versions| {
      HonestSnoc(store.versions, Version(PhaseExpired, "", "", Expirer));
    }
    store.UpdateStatus(readAt, Version(PhaseExpired, "", "", Expirer), e.fails);
  }

  /** The decider updates that land before the read of poll `n`, and before those of earlier polls. */
  function Landed(events: seq<Event>, n: nat): seq<Version>
    requires n <= |events|
  {
    if n == 0 then [] else Landed(events, n - 1) + events[n - 1].decisions
  }

  /** The poll neither gives up nor reads a concluded request. */
  predicate Waits(versions: seq<Version>, deadline: int, e: Event)
    requires versions != []
  {
    && !e.cancelled && e.now <= deadline
    && (e.stale.Some? ==> Undecided(versions[Read(versions, e.stale.value)].phase))
  }

  /** What a poll that does not wait returns. */
  function Outcome(versions: seq<Version>, deadline: int, e: Event): ApprovalResult
    requires versions != [] && !Waits(versions, deadline, e)
  {
    if e.cancelled || e.now > deadline then ApprovalResult(false, PhaseExpired, "", "")
    else Conclude(versions[Read(versions, e.stale.value)], e.now).result
  }

  /** What a poll that does not wait leaves in the store. */
  function Final(versions: seq<Version>, deadline: int, e: Event): seq<Version>
    requires versions != []
  {
    if !e.cancelled && e.now <= deadline then versions
    else versions + if Expires(versions, e) then [Version(PhaseExpired, "", "", Expirer)] else e.meanwhile
  }

  /** A poll in time that reads a decision returns it, with who decided and why; one that is cancelled or late gives up. */
  lemma OutcomeIsWhatWasRead(versions: seq<Version>, deadline: int, e: Event)
    requires versions != []
    ensures e.cancelled || e.now > deadline ==>
              !Waits(versions, deadline, e) && Outcome(versions, deadline, e) == ApprovalResult(false, PhaseExpired, "", "")
    ensures !e.cancelled && e.now <= deadline && e.stale.None? ==> Waits(versions, deadline, e)
    ensures !e.cancelled && e.now <= deadline && e.stale.Some? ==>
              var got := versions[Read(versions, e.stale.value)];
              && (Waits(versions, deadline, e) <==> got.phase in {NoPhase, PhasePending})
              && (got.phase in {PhaseApproved, PhaseDenied} ==>
                    Outcome(versions, deadline, e) ==
                    ApprovalResult(got.phase == PhaseApproved, got.phase, got.decidedBy, got.reason))
              && (got.phase == PhaseExpired ==>
                    Outcome(versions, deadline, e) == ApprovalResult(false, PhaseExpired, "", ""))
  {
  }

  /** An outcome that is a decision was written by a decider. */
  lemma OutcomeWasDecided(versions: seq<Version>, deadline: int, e: Event)
    requires Honest(versions) && !Waits(versions, deadline, e)
    requires IsDecision(Outcome(versions, deadline, e).phase)
    ensures !e.cancelled && e.now <= deadline
    ensures exists k :: DecidedAt(versions, k, Outcome(versions, deadline, e))
  {
    var readAt := Read(versions, e.stale.value);
    assert readAt > 0 ==> HonestAt(versions, readAt);
    assert DecidedAt(versions, readAt, Outcome(versions, deadline, e));
  }

  // ---------------------------------------------------------------- the loop takes the protocol's steps

  /** The labels can be taken one after the other. */
  ghost predicate Steps(s: State, labels: seq<Label>)
    decreases |labels|
  {
    labels == [] || (Enabled(s, labels[0]) && Steps(Apply(s, labels[0]), labels[1..]))
  }

  ghost function After(s: State, labels: seq<Label>): State
    requires Steps(s, labels)
    decreases |labels|
  {
    if labels == [] then s else After(Apply(s, labels[0]), labels[1..])
  }

  lemma {:induction false} StepsConcat(s: State, first: seq<Label>, second: seq<Label>)
    requires Steps(s, first) && Steps(After(s, first), second)
    ensures Steps(s, first + second) && After(s, first + second) == After(After(s, first), second)
    decreases |first|
  {
    if first == [] {
      assert first + second == second;
    } else {
      assert (first + second)[1..] == first[1..] + second;
      StepsConcat(Apply(s, first[0]), first[1..], second);
    }
  }

  lemma OneMore(s: State, labels: seq<Label>, l: Label)
    requires Steps(s, labels) && Enabled(After(s, labels), l)
    ensures Steps(s, labels + [l]) && After(s, labels + [l]) == Apply(After(s, labels), l)
  {
    assert [l][1..] == [];
    StepsConcat(s, labels, [l]);
  }

  /** From an initial state, steps make a run. */
  lemma {:induction false} StepsMakeRun(s: State, labels: seq<Label>) returns (states: seq<State>)
    requires Steps(s, labels)
    ensures |states| == |labels| + 1 && states[0] == s && states[|labels|] == After(s, labels)
    ensures forall i :: 0 <= i < |labels| ==> Enabled(states[i], labels[i]) && states[i + 1] == Apply(states[i], labels[i])
    decreases |labels|
  {
    states := [s];
    if labels != [] {
      var rest := StepsMakeRun(Apply(s, labels[0]), labels[1..]);
      states := [s] + rest;
      forall i | 0 < i < |labels|
        ensures Enabled(states[i], labels[i]) && states[i + 1] == Apply(states[i], labels[i])
      {
        assert labels[i] == labels[1..][i - 1] && states[i] == rest[i - 1] && states[i + 1] == rest[i - 1 + 1];
      }
    }
  }

  /** Deciders that do not check read the newest version and write at once. */
  lemma {:induction false} DecisionsLand(s: State, decisions: seq<Version>) returns (labels: seq<Label>)
    requires s.versions != [] && s.drafts == {} && ByDeciders(decisions)
    ensures Steps(s, labels) && After(s, labels) == s.(versions := s.versions + decisions)
    decreases |decisions|
  {
    labels := [];
    if decisions == [] {
      assert s.versions + decisions == s.versions;
    } else {
      var n := |decisions| - 1;
      var v := decisions[n];
      labels := DecisionsLand(s, decisions[..n]);
      var draft := Draft(|s.versions| + n - 1, v.phase, v.decidedBy, v.reason);
      OneMore(s, labels, DecideRead(draft, false));
      labels := labels + [DecideRead(draft, false)];
      OneMore(s, labels, DecideWrite(draft, false));
      labels := labels + [DecideWrite(draft, false)];
      assert s.versions + decisions == s.versions + decisions[..n] + [v];
    }
  }

  /** expireRequest: the read, what lands meanwhile, the write. */
  lemma ExpiryTakesSteps(s: State, e: Event) returns (labels: seq<Label>)
    requires s.versions != [] && s.drafts == {} && s.requester.ExpiryRead? && ByDeciders(e.meanwhile)
    ensures Steps(s, labels)
    ensures After(s, labels) == GiveUp(s.(versions := s.versions +
              if Expires(s.versions, e) then [Version(PhaseExpired, "", "", Expirer)] else e.meanwhile), s.requester.cancelled)
  {
    var read := if e.stale.Some? then ExpireRead(Read(s.versions, e.stale.value)) else ExpireReadFails;
    OneMore(s, [], read);
    assert [] + [read] == [read];
    var landed := DecisionsLand(Apply(s, read), e.meanwhile);
    StepsConcat(s, [read], landed);
    labels := [read] + landed;
    var t := After(s, labels);
    if t.requester.ExpiryWrite? {
      OneMore(s, labels, ExpireWrite(e.fails));
      labels := labels + [ExpireWrite(e.fails)];
    }
  }

  /** The state of the protocol after a poll. */
  function Polled(s: State, e: Event): State
    requires s.versions != []
  {
    var seen := s.versions + e.decisions;
    var t := s.(clock := e.now, versions := seen);
    if Waits(seen, s.deadline, e) then t
    else if e.cancelled then GiveUp(t.(versions := Final(seen, s.deadline, e)), true)
    else if e.now > s.deadline then GiveUp(t.(versions := Final(seen, s.deadline, e), lateTicks := s.lateTicks + 1), false)
    else t.(requester := Conclude(seen[Read(seen, e.stale.value)], e.now))
  }

  /** One pass of the loop, with what happens around it, takes steps of the protocol. */
  lemma PollTakesSteps(s: State, e: Event) returns (labels: seq<Label>)
    requires s.versions != [] && s.drafts == {} && s.requester == Polling && s.clock <= e.now
    requires ByDeciders(e.decisions) && ByDeciders(e.meanwhile)
    ensures Steps(s, labels) && After(s, labels) == Polled(s, e)
  {
    OneMore(s, [], Advance(e.now));
    assert [] + [Advance(e.now)] == [Advance(e.now)];
    var landed := DecisionsLand(Apply(s, Advance(e.now)), e.decisions);
    StepsConcat(s, [Advance(e.now)], landed);
    labels := [Advance(e.now)] + landed;
    var more := WakeTakesSteps(After(s, labels), e);
    StepsConcat(s, labels, more);
    labels := labels + more;
    LandedBefore(s, e);
  }

  lemma LandedBefore(s: State, e: Event)
    requires s.versions != []
    ensures Polled(s.(clock := e.now, versions := s.versions + e.decisions), e.(decisions := [])) == Polled(s, e)
  {
    assert s.versions + e.decisions + [] == s.versions + e.decisions;
  }

  lemma WakeTakesSteps(t: State, e: Event) returns (labels: seq<Label>)
    requires t.versions != [] && t.drafts == {} && t.requester == Polling && t.clock == e.now && ByDeciders(e.meanwhile)
    ensures Steps(t, labels) && After(t, labels) == Polled(t, e.(decisions := []))
  {
    assert t.versions + [] == t.versions;
    var wake := if e.cancelled then Cancel else Tick;
    OneMore(t, [], wake);
    assert [] + [wake] == [wake];
    var u := Apply(t, wake);
    if u.requester.ExpiryRead? {
      var expiry := ExpiryTakesSteps(u, e);
      StepsConcat(t, [wake], expiry);
      labels := [wake] + expiry;
    } else {
      var fetch := if e.stale.Some? then Fetch(Read(t.versions, e.stale.value)) else FetchFails;
      OneMore(t, [wake], fetch);
      labels := [wake] + [fetch];
    }
  }

  // ---------------------------------------------------------------- the loop

  /** One pass of the loop. */
  method Poll(store: RequestStore, deadline: int, e: Event) returns (r: Option<ApprovalResult>)
    requires Honest(store.versions) && ByDeciders(e.decisions) && ByDeciders(e.meanwhile)
    modifies store
    ensures Honest(store.versions)
    ensures var seen := old(store.versions) + e.decisions;
            if Waits(seen, deadline, e) then r.None? && store.versions == seen
            else r == Some(Outcome(seen, deadline, e)) && store.versions == Final(seen, deadline, e)
    ensures r.Some? && IsDecision(r.value.phase) ==>
              e.now <= deadline && exists k :: DecidedAt(store.versions, k, r.value)
  {
    store.Decide(e.decisions);
    if e.cancelled || e.now > deadline {
      ExpireRequest(store, e);
      return Some(ApprovalResult(false, PhaseExpired, "", ""));
    }
    if e.stale.Some? {
      var next := Conclude(store.versions[Read(store.versions, e.stale.value)], e.now);
      if next.Done? {
        if IsDecision(next.result.phase) { OutcomeWasDecided(store.versions, deadline, e); }
        return Some(next.result);
      }
    }
    return None;
  }

  /** What the poll of event `i` finds in the store when all earlier polls waited. */
  function Seen(versions: seq<Version>, events: seq<Event>, i: nat): (seen: seq<Version>)
    requires versions != [] && i < |events|
    ensures seen != []
  {
    versions + Landed(events, i + 1)
  }

  ghost predicate WaitsThrough(versions: seq<Version>, deadline: int, events: seq<Event>, n: nat)
    requires versions != [] && n <= |events|
  {
    forall i :: 0 <= i < n ==> Waits(Seen(versions, events, i), deadline, events[i])
  }

  /** The polls before number `polls` wait, and that one does not. */
  ghost predicate Returns(versions: seq<Version>, deadline: int, events: seq<Event>, polls: nat)
    requires versions != []
  {
    && 0 < polls <= |events| && WaitsThrough(versions, deadline, events, polls - 1)
    && !Waits(Seen(versions, events, polls - 1), deadline, events[polls - 1])
  }

  predicate ClockRuns(clock: int, events: seq<Event>) {
    && (events != [] ==> clock <= events[0].now)
    && forall i :: 0 < i < |events| ==> events[i - 1].now <= events[i].now
  }

  /** The protocol state shows what the loop has done. */
  ghost predicate Shows(t: State, versions: seq<Version>, deadline: int, r: Option<ApprovalResult>, err: bool) {
    && t.versions == versions && t.deadline == deadline && t.drafts == {}
    && if r.None? then t.requester == Polling && !err
       else t.requester.Done? && t.requester.result == r.value && t.requester.cancelled == err
  }

  lemma PolledShows(t: State, e: Event)
    requires t.versions != [] && Shows(t, t.versions, t.deadline, None, false)
    ensures var seen, deadline := t.versions + e.decisions, t.deadline;
            && Polled(t, e).clock == e.now
            && if Waits(seen, deadline, e) then Shows(Polled(t, e), seen, deadline, None, false)
               else Shows(Polled(t, e), Final(seen, deadline, e), deadline, Some(Outcome(seen, deadline, e)), e.cancelled)
  {
  }

  lemma TakePoll(s: State, labels: seq<Label>, versions: seq<Version>, deadline: int, e: Event) returns (labels': seq<Label>)
    requires versions != [] && Steps(s, labels) && Shows(After(s, labels), versions, deadline, None, false)
    requires After(s, labels).clock <= e.now && ByDeciders(e.decisions) && ByDeciders(e.meanwhile)
    ensures Steps(s, labels') && After(s, labels').clock == e.now
    ensures var seen, t := versions + e.decisions, After(s, labels');
            if Waits(seen, deadline, e) then Shows(t, seen, deadline, None, false)
            else Shows(t, Final(seen, deadline, e), deadline, Some(Outcome(seen, deadline, e)), e.cancelled)
  {
    var t := After(s, labels);
    var more := PollTakesSteps(t, e);
    PolledShows(t, e);
    StepsConcat(s, labels, more);
    labels' := labels + more;
  }

  /** RequestApproval's loop over the poll ticks; None means that it is still waiting. */
  method RequestApproval(store: RequestStore, deadline: int, events: seq<Event>)
    returns (r: Option<ApprovalResult>, err: bool, polls: nat)
    requires Honest(store.versions)
    requires forall i :: 0 <= i < |events| ==> ByDeciders(events[i].decisions) && ByDeciders(events[i].meanwhile)
    modifies store
    ensures r.None? ==>
              && polls == |events| && !err && WaitsThrough(old(store.versions), deadline, events, polls)
              && store.versions == old(store.versions) + Landed(events, polls)
    ensures r.Some? ==>
              && Returns(old(store.versions), deadline, events, polls)
              && var e, seen := events[polls - 1], Seen(old(store.versions), events, polls - 1);
              && r.value == Outcome(seen, deadline, e) && err == e.cancelled && store.versions == Final(seen, deadline, e)
    ensures r.Some? && IsDecision(r.value.phase) ==>
              events[polls - 1].now <= deadline && exists k :: DecidedAt(store.versions, k, r.value)
    ensures Honest(store.versions)
  {
    r, err, polls := None, false, 0;
    while polls < |events|
      invariant polls <= |events| && Honest(store.versions) && r.None? && !err
      invariant store.versions == old(store.versions) + Landed(events, polls)
      invariant WaitsThrough(old(store.versions), deadline, events, polls)
    {
      var e := events[polls];
      SeenNext(old(store.versions), events, polls);
      r := Poll(store, deadline, e);
      polls := polls + 1;
      if r.Some? {
        return r, e.cancelled, polls;
      }
    }
  }

  lemma SeenNext(versions: seq<Version>, events: seq<Event>, i: nat)
    requires versions != [] && i < |events|
    ensures versions + Landed(events, i) + events[i].decisions == Seen(versions, events, i)
  {
  }

  lemma {:induction false} WaitingTakesSteps(s: State, events: seq<Event>, n: nat) returns (labels: seq<Label>)
    requires s.versions != [] && Shows(s, s.versions, s.deadline, None, false) && ClockRuns(s.clock, events)
    requires forall i :: 0 <= i < |events| ==> ByDeciders(events[i].decisions) && ByDeciders(events[i].meanwhile)
    requires n <= |events| && WaitsThrough(s.versions, s.deadline, events, n)
    ensures Steps(s, labels) && Shows(After(s, labels), s.versions + Landed(events, n), s.deadline, None, false)
    ensures n < |events| ==> After(s, labels).clock <= events[n].now
    decreases n
  {
    labels := [];
    if n == 0 {
      assert s.versions + Landed(events, 0) == s.versions;
    } else {
      labels := WaitingTakesSteps(s, events, n - 1);
      SeenNext(s.versions, events, n - 1);
      assert Waits(Seen(s.versions, events, n - 1), s.deadline, events[n - 1]);
      labels := TakePoll(s, labels, s.versions + Landed(events, n - 1), s.deadline, events[n - 1]);
    }
  }

  /**
   * What a whole call of RequestApproval returns and leaves in the store is what a run of the
   * protocol comes to, whose steps are the loop's and those of the deciders around it.
   */
  lemma RequestIsRun(s: State, events: seq<Event>, polls: nat) returns (states: seq<State>, labels: seq<Label>)
    requires Init(s) && ClockRuns(s.clock, events)
    requires forall i :: 0 <= i < |events| ==> ByDeciders(events[i].decisions) && ByDeciders(events[i].meanwhile)
    requires Returns(s.versions, s.deadline, events, polls)
    ensures Run(states, labels)
    ensures var e, seen := events[polls - 1], Seen(s.versions, events, polls - 1);
            Shows(states[|labels|], Final(seen, s.deadline, e), s.deadline, Some(Outcome(seen, s.deadline, e)), e.cancelled)
  {
    labels := WaitingTakesSteps(s, events, polls - 1);
    SeenNext(s.versions, events, polls - 1);
    labels := TakePoll(s, labels, s.versions + Landed(events, polls - 1), s.deadline, events[polls - 1]);
    states := StepsMakeRun(s, labels);
  }
}
