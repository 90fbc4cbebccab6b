/**
 * The admission protocol: one scheduler goroutine that checks, reserves and records each start in
 * separately locked steps, and any number of run goroutines that finish in between.
 */
module Admission {
  import opened Types
  import opened RateLimit
  import opened Tracker

  const STALE_AFTER: int := 1800 * 1_000_000_000

  /** `limited` is false when no rate limiter is configured. */
  datatype Params = Params(config: Config, limited: bool, maxConcurrentRuns: int)

  /** Where the scheduler goroutine is between two locked steps. */
  datatype Scheduler =
    | Idle
    | Due(agent: string, webhook: bool)
    | Admitted(agent: string, webhook: bool, at: int)
    | Reserved(agent: string, webhook: bool, at: int)
    | Started(agent: string)
    | Unreserved(agent: string)   // the run config failed: tracker released, limiter not yet

  /** A recorded start: when it was admitted and when it was recorded. */
  datatype Start = Start(agent: string, time: int, webhook: bool, admittedAt: int)

  /**
   * `running` are the run goroutines before RecordComplete, `closing` those between RecordComplete
   * and the tracker's Complete; a goroutine acts only through its agent key. `log` is never pruned.
   */
  datatype State = State(
    clock: int,
    limiter: Counters,
    tracker: InFlight,
    scheduler: Scheduler,
    running: multiset<string>,
    closing: multiset<string>,
    log: seq<Start>)

  predicate Init(s: State) {
    && s.limiter == Counters(map[], 0, [])
    && s.tracker == map[]
    && s.scheduler == Idle
    && s.running == multiset{} && s.closing == multiset{}
    && s.log == []
  }

  datatype Label =
    | Advance(to: int)
    | CleanStale
    | TakeDue(agent: string)
    | TakeWebhook(agent: string)
    | Allow
    | TryStart
    | RecordStart
    | Spawn
    | ConfigFails
    | ReleaseFailed
    | Finish(agent: string)
    | Close(agent: string)
    | ReadStats

  predicate Enabled(p: Params, s: State, l: Label) {
    match l
    case Advance(to) => to >= s.clock
    case CleanStale => s.scheduler.Idle?
    case TakeDue(a) => s.scheduler.Idle? && a !in s.tracker && |s.tracker| < p.maxConcurrentRuns
    case TakeWebhook(a) => s.scheduler.Idle?
    case Allow => s.scheduler.Due?
    case TryStart => s.scheduler.Admitted?
    case RecordStart => s.scheduler.Reserved?
    case Spawn => s.scheduler.Started?
    case ConfigFails => s.scheduler.Started?
    case ReleaseFailed => s.scheduler.Unreserved?
    case Finish(a) => a in s.running
    case Close(a) => a in s.closing
    case ReadStats => true
  }

  function Apply(p: Params, s: State, l: Label): State
    requires Enabled(p, s, l)
  {
    match l
    case Advance(to) => s.(clock := to)
    case CleanStale => s.(tracker := Fresh(s.tracker, s.clock, STALE_AFTER))
    case TakeDue(a) => s.(scheduler := Due(a, false))
    case TakeWebhook(a) => s.(scheduler := Due(a, true))
    case Allow =>
      if !p.limited then s.(scheduler := Admitted(s.scheduler.agent, s.scheduler.webhook, s.clock))
      else s.(limiter := Pruned(s.limiter, s.clock),
              scheduler := if Admits(p.config, s.limiter, s.scheduler.agent, s.scheduler.webhook, s.clock)
                           then Admitted(s.scheduler.agent, s.scheduler.webhook, s.clock) else Idle)
    case TryStart =>
      if s.scheduler.agent in s.tracker then s.(scheduler := Idle)
      else s.(tracker := s.tracker[s.scheduler.agent := s.clock],
              scheduler := Reserved(s.scheduler.agent, s.scheduler.webhook, s.scheduler.at))
    case RecordStart =>
      var a := s.scheduler.agent;
      s.(limiter := if p.limited then Begun(s.limiter, a, s.clock) else s.limiter,
         scheduler := Started(a),
         log := s.log + [Start(a, s.clock, s.scheduler.webhook, s.scheduler.at)])
    case Spawn => s.(scheduler := Idle, running := s.running + multiset{s.scheduler.agent})
    case ConfigFails => s.(tracker := s.tracker - {s.scheduler.agent}, scheduler := Unreserved(s.scheduler.agent))
    case ReleaseFailed =>
      s.(limiter := if p.limited then Ended(s.limiter, s.scheduler.agent) else s.limiter, scheduler := Idle)
    case Finish(a) =>
      s.(limiter := if p.limited then Ended(s.limiter, a) else s.limiter,
         running := s.running - multiset{a}, closing := s.closing + multiset{a})
    case Close(a) => s.(tracker := s.tracker - {a}, closing := s.closing - multiset{a})
    case ReadStats => if p.limited then s.(limiter := Pruned(s.limiter, s.clock)) else s
  }

  ghost predicate Run(p: Params, states: seq<State>, labels: seq<Label>) {
    && |states| == |labels| + 1
    && Init(states[0])
    && forall i :: 0 <= i < |labels| ==>
         Enabled(p, states[i], labels[i]) && states[i + 1] == Apply(p, states[i], labels[i])
  }

  // ---------------------------------------------------------------- concurrency

  /** The runs between RecordStart and RecordComplete, by agent. */
  function Live(s: State): multiset<string> {
    s.running + if s.scheduler.Started? || s.scheduler.Unreserved? then multiset{s.scheduler.agent} else multiset{}
  }

  /** The counters count the live runs. */
  ghost predicate Counted(s: State) {
    && (forall a :: s.limiter.Concurrent(a) == Live(s)[a])
    && s.limiter.totalConc == |Live(s)|
  }

  function MaxInt(x: int, y: int): int { if x >= y then x else y }

  ghost predicate ConcurrencyBounded(p: Params, s: State) {
    && (forall a :: a in Live(s) ==> Live(s)[a] <= p.config.maxConcurrentPerAgent)
    && (Live(s) != multiset{} ==>
          |Live(s)| <= MaxInt(p.config.ConcurrencyLimit(false), p.config.ConcurrencyLimit(true)))
    && (s.scheduler.Admitted? || s.scheduler.Reserved? ==>
          && Live(s)[s.scheduler.agent] < p.config.maxConcurrentPerAgent
          && |Live(s)| < p.config.ConcurrencyLimit(s.scheduler.webhook))
  }

  /** The agent whose run the step ends, for the limiter. */
  predicate Ends(l: Label) { l.Finish? || l.ReleaseFailed? }

  function EndedAgent(s: State, l: Label): string
    requires l.Finish? || (l.ReleaseFailed? && s.scheduler.Unreserved?)
  {
    if l.Finish? then l.agent else s.scheduler.agent
  }

  lemma LiveAfterEnd(p: Params, s: State, l: Label)
    requires Enabled(p, s, l) && Ends(l)
    ensures Live(s) == Live(Apply(p, s, l)) + multiset{EndedAgent(s, l)}
  {
    var s' := Apply(p, s, l);
    if l.Finish? {
      assert s.running == s'.running + multiset{l.agent};
    }
  }

  lemma LiveAfterStart(p: Params, s: State)
    requires Enabled(p, s, RecordStart)
    ensures Live(Apply(p, s, RecordStart)) == Live(s) + multiset{s.scheduler.agent}
  {
  }

  lemma LiveAfterOther(p: Params, s: State, l: Label)
    requires Enabled(p, s, l) && !Ends(l) && l != RecordStart
    ensures Live(Apply(p, s, l)) == Live(s)
  {
    if l.Spawn? {
      assert Apply(p, s, l).running == Live(s);
    }
  }

  lemma CountersFollow(p: Params, s: State, l: Label)
    requires p.limited && Enabled(p, s, l) && Counted(s)
    ensures Counted(Apply(p, s, l))
  {
    if Ends(l) {
      LiveAfterEnd(p, s, l);
      EndIsCounted(s, Apply(p, s, l), EndedAgent(s, l));
    } else if l == RecordStart {
      LiveAfterStart(p, s);
      StartIsCounted(s, Apply(p, s, l), s.scheduler.agent);
    } else {
      LiveAfterOther(p, s, l);
      var s' := Apply(p, s, l);
      assert s'.limiter.concurrent == s.limiter.concurrent && s'.limiter.totalConc == s.limiter.totalConc;
    }
  }

  lemma EndIsCounted(s: State, s': State, agent: string)
    requires Counted(s) && Live(s) == Live(s') + multiset{agent} && s'.limiter == Ended(s.limiter, agent)
    ensures Counted(s')
  {
    assert Live(s)[agent] == Live(s')[agent] + 1 && |Live(s)| == |Live(s')| + 1;
    forall a ensures s'.limiter.Concurrent(a) == Live(s')[a] {
      assert s.limiter.Concurrent(a) == Live(s)[a];
    }
  }

  lemma StartIsCounted(s: State, s': State, agent: string)
    requires Counted(s) && Live(s') == Live(s) + multiset{agent}
    requires s'.limiter.concurrent == s.limiter.concurrent[agent := s.limiter.Concurrent(agent) + 1]
    requires s'.limiter.totalConc == s.limiter.totalConc + 1
    ensures Counted(s')
  {
    forall a ensures s'.limiter.Concurrent(a) == Live(s')[a] {
      assert s.limiter.Concurrent(a) == Live(s)[a];
    }
  }

  lemma LiveOnlyShrinksOrStarts(p: Params, s: State, l: Label)
    requires Enabled(p, s, l)
    ensures l == RecordStart ==> Live(Apply(p, s, l)) == Live(s) + multiset{s.scheduler.agent}
    ensures l != RecordStart ==> Live(Apply(p, s, l)) <= Live(s)
  {
    if Ends(l) {
      LiveAfterEnd(p, s, l);
    } else if l == RecordStart {
      LiveAfterStart(p, s);
    } else {
      LiveAfterOther(p, s, l);
    }
  }

  lemma SubMultisetSize(a: multiset<string>, b: multiset<string>)
    requires a <= b
    ensures |a| <= |b|
  {
    assert b == a + (b - a);
  }

  /** The admission that is waiting to be recorded after a step was already waiting before it. */
  predicate SameAdmission(s: State, s': State) {
    s'.scheduler.Admitted? || s'.scheduler.Reserved? ==>
      && (s.scheduler.Admitted? || s.scheduler.Reserved?)
      && s'.scheduler.agent == s.scheduler.agent
      && s'.scheduler.webhook == s.scheduler.webhook
      && s'.scheduler.at == s.scheduler.at
  }

  lemma OnlyAllowAdmits(p: Params, s: State, l: Label)
    requires Enabled(p, s, l) && l != Allow
    ensures SameAdmission(s, Apply(p, s, l))
  {
  }

  lemma ShrinkingKeepsBounds(p: Params, s: State, s': State)
    requires ConcurrencyBounded(p, s) && Live(s') <= Live(s) && SameAdmission(s, s')
    ensures ConcurrencyBounded(p, s')
  {
    SubMultisetSize(Live(s'), Live(s));
    forall a ensures Live(s')[a] <= Live(s)[a] {
    }
  }

  lemma AllowKeepsBounds(p: Params, s: State)
    requires p.limited && Enabled(p, s, Allow) && Counted(s) && ConcurrencyBounded(p, s)
    ensures ConcurrencyBounded(p, Apply(p, s, Allow))
  {
    LiveAfterOther(p, s, Allow);
  }

  lemma StartKeepsBounds(p: Params, s: State)
    requires Enabled(p, s, RecordStart) && ConcurrencyBounded(p, s)
    ensures ConcurrencyBounded(p, Apply(p, s, RecordStart))
  {
    LiveAfterStart(p, s);
  }

  lemma BoundsFollow(p: Params, s: State, l: Label)
    requires p.limited && Enabled(p, s, l) && Counted(s) && ConcurrencyBounded(p, s)
    ensures ConcurrencyBounded(p, Apply(p, s, l))
  {
    if l == Allow {
      AllowKeepsBounds(p, s);
    } else if l == RecordStart {
      StartKeepsBounds(p, s);
    } else {
      OnlyAllowAdmits(p, s, l);
      LiveOnlyShrinksOrStarts(p, s, l);
      ShrinkingKeepsBounds(p, s, Apply(p, s, l));
    }
  }

  lemma {:induction false} RunIsBounded(p: Params, states: seq<State>, labels: seq<Label>, i: nat)
    requires p.limited && Run(p, states, labels) && i < |states|
    ensures Counted(states[i]) && ConcurrencyBounded(p, states[i])
    decreases i
  {
    if i > 0 {
      RunIsBounded(p, states, labels, i - 1);
      CountersFollow(p, states[i - 1], labels[i - 1]);
      BoundsFollow(p, states[i - 1], labels[i - 1]);
    }
  }

  /**
   * In every interleaving, also those where CleanStale drops a live run and a late Complete erases
   * a newer run's entry, the counters are exactly the live runs and stay within the limits.
   */
  lemma ConcurrencyBound(p: Params, states: seq<State>, labels: seq<Label>, i: nat, agent: string)
    requires p.limited && Run(p, states, labels) && i < |states|
    ensures states[i].limiter.Concurrent(agent) == Live(states[i])[agent]
    ensures Live(states[i])[agent] <= MaxInt(0, p.config.maxConcurrentPerAgent)
    ensures states[i].limiter.totalConc == |Live(states[i])|
    ensures p.config.burstAllowance >= 0 ==>
              |Live(states[i])| <= MaxInt(0, p.config.maxConcurrentCluster + p.config.burstAllowance)
  {
    RunIsBounded(p, states, labels, i);
    if agent !in Live(states[i]) {
      assert Live(states[i])[agent] == 0;
    }
  }

  /** A scheduled start, unlike a webhook's, never uses the burst allowance. */
  lemma ScheduledStartUsesNoBurst(p: Params, states: seq<State>, labels: seq<Label>, i: nat)
    requires p.limited && Run(p, states, labels) && i < |labels|
    requires labels[i] == RecordStart && !states[i].scheduler.webhook
    ensures |Live(states[i + 1])| <= p.config.maxConcurrentCluster
  {
    RunIsBounded(p, states, labels, i);
    LiveAfterStart(p, states[i]);
  }

  // ---------------------------------------------------------------- rates

  /** The starts at or after `lo`: of one agent, or of all. */
  function Since(log: seq<Start>, who: Option<string>, lo: int): nat {
    if log == [] then 0
    else
      var last := log[|log| - 1];
      Since(log[..|log| - 1], who, lo) +
      if (who.None? || who.value == last.agent) && last.time >= lo then 1 else 0
  }

  /** The starts in the closed window from `lo` to `hi`. */
  function Within(log: seq<Start>, who: Option<string>, lo: int, hi: int): nat {
    if log == [] then 0
    else
      var last := log[|log| - 1];
      Within(log[..|log| - 1], who, lo, hi) +
      if (who.None? || who.value == last.agent) && lo <= last.time <= hi then 1 else 0
  }

  /** `history` is the log without some starts that are more than an hour old. */
  ghost predicate Suffix(log: seq<Start>, history: seq<RunRecord>, cutoff: int) {
    && |history| <= |log|
    && var d := |log| - |history|;
    && (forall i :: 0 <= i < |history| ==> history[i] == RunRecord(log[d + i].agent, log[d + i].time))
    && (forall i :: 0 <= i < d ==> log[i].time < cutoff)
  }

  ghost predicate TimeSorted(s: State) {
    && (forall i, j :: 0 <= i <= j < |s.log| ==> s.log[i].time <= s.log[j].time)
    && (forall i :: 0 <= i < |s.log| ==> s.log[i].time <= s.clock)
  }

  /** Neither the agent's nor the cluster's hour was full when this start was admitted. */
  predicate Fair(p: Params, before: seq<Start>, agent: string, webhook: bool, at: int) {
    && Since(before, Some(agent), at - HOUR) < p.config.maxRunsPerHourPerAgent
    && Since(before, None, at - HOUR) < p.config.RateLimit(webhook)
  }

  predicate FairAt(p: Params, log: seq<Start>, i: nat)
    requires i < |log|
  {
    log[i].admittedAt <= log[i].time && Fair(p, log[..i], log[i].agent, log[i].webhook, log[i].admittedAt)
  }

  predicate AllFair(p: Params, log: seq<Start>) {
    forall i :: 0 <= i < |log| ==> FairAt(p, log, i)
  }

  lemma FairPrefix(p: Params, log: seq<Start>, k: nat)
    requires AllFair(p, log) && k <= |log|
    ensures AllFair(p, log[..k])
  {
    var prefix := log[..k];
    forall i | 0 <= i < k ensures FairAt(p, prefix, i) {
      assert FairAt(p, log, i);
      assert prefix[..i] == log[..i];
    }
  }

  lemma FairSnoc(p: Params, log: seq<Start>, next: Start)
    requires AllFair(p, log)
    requires next.admittedAt <= next.time && Fair(p, log, next.agent, next.webhook, next.admittedAt)
    ensures AllFair(p, log + [next])
  {
    var longer := log + [next];
    forall i | 0 <= i < |longer| ensures FairAt(p, longer, i) {
      assert longer[..i] == log[..i];
      if i < |log| {
        assert FairAt(p, log, i);
      } else {
        assert log[..i] == log;
      }
    }
  }

  ghost predicate RateInvariant(p: Params, s: State) {
    && TimeSorted(s)
    && Suffix(s.log, s.limiter.history, s.clock - HOUR)
    && AllFair(p, s.log)
    && (s.scheduler.Admitted? || s.scheduler.Reserved? ==>
          s.scheduler.at <= s.clock && Fair(p, s.log, s.scheduler.agent, s.scheduler.webhook, s.scheduler.at))
  }

  /** What Allow counts in its pruned history is what the full log holds. */
  lemma {:induction false} CountsAgree(log: seq<Start>, recent: seq<RunRecord>, cutoff: int, agent: string)
    requires Suffix(log, recent, cutoff)
    requires forall i :: 0 <= i < |recent| ==> recent[i].time >= cutoff
    ensures |recent| == Since(log, None, cutoff)
    ensures CountSince(recent, agent, cutoff) == Since(log, Some(agent), cutoff)
    decreases |log|
  {
    if log != [] {
      var shorter := log[..|log| - 1];
      if recent == [] {
        CountsAgree(shorter, [], cutoff, agent);
      } else {
        var m := |recent| - 1;
        assert recent[m] == RunRecord(log[|log| - 1].agent, log[|log| - 1].time);
        CountsAgree(shorter, recent[..m], cutoff, agent);
      }
    }
  }

  lemma SuffixOfSuffix(log: seq<Start>, history: seq<RunRecord>, recent: seq<RunRecord>, cutoff: int)
    requires Suffix(log, history, cutoff) && |recent| <= |history|
    requires recent == history[|history| - |recent|..]
    requires forall i :: 0 <= i < |history| - |recent| ==> history[i].time < cutoff
    ensures Suffix(log, recent, cutoff)
  {
    var base, d := |log| - |history|, |history| - |recent|;
    forall i | 0 <= i < |recent|
      ensures recent[i] == RunRecord(log[base + d + i].agent, log[base + d + i].time)
    {
      assert recent[i] == history[d + i];
    }
    forall i | base <= i < base + d ensures log[i].time < cutoff {
      assert history[i - base] == RunRecord(log[base + (i - base)].agent, log[base + (i - base)].time);
    }
  }

  lemma SuffixIsSorted(s: State)
    requires TimeSorted(s) && Suffix(s.log, s.limiter.history, s.clock - HOUR)
    ensures Sorted(s.limiter.history)
  {
  }

  /** Pruning keeps the suffix, and leaves only recent starts. */
  lemma PruneKeepsSuffix(s: State)
    requires TimeSorted(s) && Suffix(s.log, s.limiter.history, s.clock - HOUR)
    ensures var recent := Prune(s.limiter.history, s.clock - HOUR);
            && Suffix(s.log, recent, s.clock - HOUR)
            && forall i :: 0 <= i < |recent| ==> recent[i].time >= s.clock - HOUR
  {
    SuffixIsSorted(s);
    PruneIsFilter(s.limiter.history, s.clock - HOUR);
    SuffixOfSuffix(s.log, s.limiter.history, Prune(s.limiter.history, s.clock - HOUR), s.clock - HOUR);
  }

  lemma AdmissionIsFair(p: Params, s: State, agent: string, webhook: bool)
    requires TimeSorted(s) && Suffix(s.log, s.limiter.history, s.clock - HOUR)
    requires Admits(p.config, s.limiter, agent, webhook, s.clock)
    ensures Fair(p, s.log, agent, webhook, s.clock)
  {
    PruneKeepsSuffix(s);
    CountsAgree(s.log, Prune(s.limiter.history, s.clock - HOUR), s.clock - HOUR, agent);
  }

  lemma StartKeepsRates(p: Params, s: State)
    requires p.limited && RateInvariant(p, s) && s.scheduler.Reserved?
    ensures RateInvariant(p, Apply(p, s, RecordStart))
  {
    var a := s.scheduler.agent;
    FairSnoc(p, s.log, Start(a, s.clock, s.scheduler.webhook, s.scheduler.at));
  }

  /** A step that leaves the log alone and at most prunes the history. */
  lemma OtherKeepsRates(p: Params, s: State, s': State)
    requires RateInvariant(p, s)
    requires s'.log == s.log && s'.clock >= s.clock && SameAdmission(s, s')
    requires Suffix(s.log, s'.limiter.history, s'.clock - HOUR)
    ensures RateInvariant(p, s')
  {
  }

  lemma AllowKeepsRates(p: Params, s: State)
    requires p.limited && Enabled(p, s, Allow) && RateInvariant(p, s)
    ensures RateInvariant(p, Apply(p, s, Allow))
  {
    PruneKeepsSuffix(s);
    if Admits(p.config, s.limiter, s.scheduler.agent, s.scheduler.webhook, s.clock) {
      AdmissionIsFair(p, s, s.scheduler.agent, s.scheduler.webhook);
    }
  }

  lemma OthersKeepTheLog(p: Params, s: State, l: Label)
    requires Enabled(p, s, l) && l != Allow && l != RecordStart
    ensures var s' := Apply(p, s, l);
            && s'.log == s.log && s'.clock >= s.clock
            && s'.limiter.history in {s.limiter.history, Prune(s.limiter.history, s.clock - HOUR)}
            && (s'.limiter.history == s.limiter.history || s'.clock == s.clock)
  {
  }

  lemma StepKeepsRates(p: Params, s: State, l: Label)
    requires p.limited && Enabled(p, s, l) && RateInvariant(p, s)
    ensures RateInvariant(p, Apply(p, s, l))
  {
    if l == RecordStart {
      StartKeepsRates(p, s);
    } else if l == Allow {
      AllowKeepsRates(p, s);
    } else {
      PruneKeepsSuffix(s);
      OthersKeepTheLog(p, s, l);
      OnlyAllowAdmits(p, s, l);
      OtherKeepsRates(p, s, Apply(p, s, l));
    }
  }

  lemma {:induction false} RunKeepsRates(p: Params, states: seq<State>, labels: seq<Label>, i: nat)
    requires p.limited && Run(p, states, labels) && i < |states|
    ensures RateInvariant(p, states[i])
    decreases i
  {
    if i > 0 {
      RunKeepsRates(p, states, labels, i - 1);
      StepKeepsRates(p, states[i - 1], labels[i - 1]);
    }
  }

  lemma {:induction false} WithinIsSince(log: seq<Start>, who: Option<string>, lo: int, hi: int, lo': int)
    requires lo' <= lo
    ensures Within(log, who, lo, hi) <= Since(log, who, lo')
  {
    if log != [] { WithinIsSince(log[..|log| - 1], who, lo, hi, lo'); }
  }

  /** A log of fair starts never has too many of one agent in an hour. */
  lemma {:induction false} AgentWindow(p: Params, log: seq<Start>, agent: string, lo: int)
    requires AllFair(p, log)
    ensures Within(log, Some(agent), lo, lo + HOUR) <= MaxInt(0, p.config.maxRunsPerHourPerAgent)
    decreases |log|
  {
    if log != [] {
      var n := |log| - 1;
      assert FairAt(p, log, n);
      FairPrefix(p, log, n);
      AgentWindow(p, log[..n], agent, lo);
      if log[n].agent == agent && lo <= log[n].time <= lo + HOUR {
        WithinIsSince(log[..n], Some(agent), lo, lo + HOUR, log[n].admittedAt - HOUR);
      }
    }
  }

  /** ... nor too many in total; the limit is that of the last start in the window. */
  lemma {:induction false} ClusterWindow(p: Params, log: seq<Start>, lo: int)
    requires AllFair(p, log)
    ensures var n := Within(log, None, lo, lo + HOUR);
            n == 0 || n <= MaxInt(p.config.RateLimit(false), p.config.RateLimit(true))
    ensures log != [] && lo <= log[|log| - 1].time <= lo + HOUR ==>
              Within(log, None, lo, lo + HOUR) <= p.config.RateLimit(log[|log| - 1].webhook)
    decreases |log|
  {
    if log != [] {
      var n := |log| - 1;
      assert FairAt(p, log, n);
      FairPrefix(p, log, n);
      ClusterWindow(p, log[..n], lo);
      if lo <= log[n].time <= lo + HOUR {
        WithinIsSince(log[..n], None, lo, lo + HOUR, log[n].admittedAt - HOUR);
      }
    }
  }

  /**
   * Over every run of the protocol, any closed one-hour window holds at most
   * maxRunsPerHourPerAgent starts of an agent and at most maxRunsPerHourCluster starts plus ten
   * times the burst allowance in all; without the burst if its last start was scheduled.
   */
  lemma SlidingWindowBound(p: Params, states: seq<State>, labels: seq<Label>, i: nat, agent: string, lo: int)
    requires p.limited && Run(p, states, labels) && i < |states|
    ensures Within(states[i].log, Some(agent), lo, lo + HOUR) <= MaxInt(0, p.config.maxRunsPerHourPerAgent)
    ensures p.config.burstAllowance >= 0 ==>
              Within(states[i].log, None, lo, lo + HOUR) <=
                MaxInt(0, p.config.maxRunsPerHourCluster + 10 * p.config.burstAllowance)
    ensures forall k :: 0 <= k < |states[i].log| && !states[i].log[k].webhook && lo <= states[i].log[k].time <= lo + HOUR ==>
              Within(states[i].log[..k + 1], None, lo, lo + HOUR) <= p.config.maxRunsPerHourCluster
  {
    RunKeepsRates(p, states, labels, i);
    AgentWindow(p, states[i].log, agent, lo);
    ClusterWindow(p, states[i].log, lo);
    forall k | 0 <= k < |states[i].log| && !states[i].log[k].webhook && lo <= states[i].log[k].time <= lo + HOUR
      ensures Within(states[i].log[..k + 1], None, lo, lo + HOUR) <= p.config.maxRunsPerHourCluster
    {
      FairPrefix(p, states[i].log, k + 1);
      ClusterWindow(p, states[i].log[..k + 1], lo);
    }
  }

  // ---------------------------------------------------------------- exactly who is admitted

  /** There is room for one more run of the agent, in the limiter's four limits. */
  predicate HasRoom(c: Config, s: State, agent: string, webhook: bool) {
    && Live(s)[agent] < c.maxConcurrentPerAgent
    && |Live(s)| < c.maxConcurrentCluster + (if webhook then c.burstAllowance else 0)
    && Since(s.log, Some(agent), s.clock - 3600 * 1_000_000_000) < c.maxRunsPerHourPerAgent
    && Since(s.log, None, s.clock - 3600 * 1_000_000_000) <
         c.maxRunsPerHourCluster + (if webhook then 10 * c.burstAllowance else 0)
  }

  lemma AdmitsIff(p: Params, s: State, agent: string, webhook: bool)
    requires Counted(s) && RateInvariant(p, s)
    ensures Admits(p.config, s.limiter, agent, webhook, s.clock) <==> HasRoom(p.config, s, agent, webhook)
  {
    PruneKeepsSuffix(s);
    CountsAgree(s.log, Prune(s.limiter.history, s.clock - HOUR), s.clock - HOUR, agent);
  }

  /** Over every run, a start is admitted if and only if there is room for it. */
  lemma AdmittedIffRoom(p: Params, states: seq<State>, labels: seq<Label>, i: nat)
    requires p.limited && Run(p, states, labels) && i < |labels| && labels[i] == Allow
    ensures states[i].scheduler.Due?
    ensures var agent, webhook := states[i].scheduler.agent, states[i].scheduler.webhook;
            states[i + 1].scheduler ==
            if HasRoom(p.config, states[i], agent, webhook) then Admitted(agent, webhook, states[i].clock) else Idle
  {
    RunIsBounded(p, states, labels, i);
    RunKeepsRates(p, states, labels, i);
    AdmitsIff(p, states[i], states[i].scheduler.agent, states[i].scheduler.webhook);
  }

  /**
   * An agent that is due, is not running and has room, in the scheduler and in the limiter, is
   * started: the scheduler's next steps can be taken and leave it running.
   */
  lemma RoomMeansStart(p: Params, states: seq<State>, labels: seq<Label>, agent: string)
    returns (states': seq<State>, labels': seq<Label>)
    requires Run(p, states, labels)
    requires var s := states[|labels|];
             && s.scheduler == Idle && agent !in s.tracker && |s.tracker| < p.maxConcurrentRuns
             && (p.limited ==> HasRoom(p.config, s, agent, false))
    ensures Run(p, states', labels') && states <= states' && labels <= labels'
    ensures labels'[|labels|..] == [TakeDue(agent), Allow, TryStart, RecordStart, Spawn]
    ensures var s, s' := states[|labels|], states'[|labels'|];
            && s'.running == s.running + multiset{agent} && agent in s'.tracker && s'.scheduler == Idle
            && s'.log == s.log + [Start(agent, s.clock, false, s.clock)]
  {
    var s := states[|labels|];
    if p.limited {
      RunIsBounded(p, states, labels, |labels|);
      RunKeepsRates(p, states, labels, |labels|);
      AdmitsIff(p, s, agent, false);
    }
    states', labels' := StartNow(p, states, labels, agent);
  }

  lemma Extend(p: Params, states: seq<State>, labels: seq<Label>, l: Label) returns (states': seq<State>)
    requires Run(p, states, labels) && Enabled(p, states[|labels|], l)
    ensures states' == states + [Apply(p, states[|labels|], l)] && Run(p, states', labels + [l])
  {
    states' := states + [Apply(p, states[|labels|], l)];
    var labels' := labels + [l];
    forall i | 0 <= i < |labels'|
      ensures Enabled(p, states'[i], labels'[i]) && states'[i + 1] == Apply(p, states'[i], labels'[i])
    {
      if i < |labels| {
        assert states'[i] == states[i] && states'[i + 1] == states[i + 1];
      }
    }
  }

  lemma StartNow(p: Params, states: seq<State>, labels: seq<Label>, agent: string)
    returns (states': seq<State>, labels': seq<Label>)
    requires Run(p, states, labels)
    requires var s := states[|labels|];
             && s.scheduler == Idle && agent !in s.tracker && |s.tracker| < p.maxConcurrentRuns
             && (p.limited ==> Admits(p.config, s.limiter, agent, false, s.clock))
    ensures Run(p, states', labels') && states <= states' && labels <= labels'
    ensures labels'[|labels|..] == [TakeDue(agent), Allow, TryStart, RecordStart, Spawn]
    ensures var s, s' := states[|labels|], states'[|labels'|];
            && s'.running == s.running + multiset{agent} && agent in s'.tracker && s'.scheduler == Idle
            && s'.log == s.log + [Start(agent, s.clock, false, s.clock)]
  {
    var t1 := Extend(p, states, labels, TakeDue(agent));
    var t2 := Extend(p, t1, labels + [TakeDue(agent)], Allow);
    var t3 := Extend(p, t2, labels + [TakeDue(agent)] + [Allow], TryStart);
    var t4 := Extend(p, t3, labels + [TakeDue(agent)] + [Allow] + [TryStart], RecordStart);
    labels' := labels + [TakeDue(agent)] + [Allow] + [TryStart] + [RecordStart] + [Spawn];
    states' := Extend(p, t4, labels + [TakeDue(agent)] + [Allow] + [TryStart] + [RecordStart], Spawn);
  }

  // ---------------------------------------------------------------- one run at a time

  /** The runs between TryStart and the tracker's Complete, by agent. */
  function Tracked(s: State): multiset<string> {
    s.running + s.closing +
    if s.scheduler.Reserved? || s.scheduler.Started? then multiset{s.scheduler.agent} else multiset{}
  }

  predicate DropsLive(s: State, l: Label) {
    l == CleanStale && exists a :: a in s.tracker && a !in Fresh(s.tracker, s.clock, STALE_AFTER) && a in Tracked(s)
  }

  /** The tracker holds exactly the agents with a run, and none has two. */
  ghost predicate OneAtATime(s: State) {
    && (forall a :: Tracked(s)[a] <= 1)
    && (forall a :: a in s.tracker <==> a in Tracked(s))
  }

  lemma TrackedAfterTryStart(p: Params, s: State)
    requires Enabled(p, s, TryStart) && s.scheduler.agent !in s.tracker
    ensures Tracked(Apply(p, s, TryStart)) == Tracked(s) + multiset{s.scheduler.agent}
  {
  }

  lemma TrackedAfterClose(p: Params, s: State, agent: string)
    requires Enabled(p, s, Close(agent))
    ensures Tracked(s) == Tracked(Apply(p, s, Close(agent))) + multiset{agent}
  {
    assert s.closing == (s.closing - multiset{agent}) + multiset{agent};
  }

  lemma TrackedAfterConfigFails(p: Params, s: State)
    requires Enabled(p, s, ConfigFails)
    ensures Tracked(s) == Tracked(Apply(p, s, ConfigFails)) + multiset{s.scheduler.agent}
  {
  }

  lemma TrackedAfterFinish(p: Params, s: State, agent: string)
    requires Enabled(p, s, Finish(agent))
    ensures Tracked(Apply(p, s, Finish(agent))) == Tracked(s)
  {
    var s' := Apply(p, s, Finish(agent));
    assert s'.running + s'.closing == s.running + s.closing;
  }

  lemma TrackedAfterSpawn(p: Params, s: State)
    requires Enabled(p, s, Spawn)
    ensures Tracked(Apply(p, s, Spawn)) == Tracked(s)
  {
    assert Apply(p, s, Spawn).running == s.running + multiset{s.scheduler.agent};
  }

  lemma OthersKeepRuns(p: Params, s: State, l: Label)
    requires Enabled(p, s, l) && !l.Close? && !l.Finish? && !l.Spawn?
    ensures Apply(p, s, l).running == s.running && Apply(p, s, l).closing == s.closing
  {
  }

  lemma TrackedSame(p: Params, s: State, l: Label)
    requires Enabled(p, s, l) && !l.Close? && !l.ConfigFails?
    requires l == TryStart ==> s.scheduler.agent in s.tracker
    ensures Tracked(Apply(p, s, l)) == Tracked(s)
  {
    if l.Finish? {
      TrackedAfterFinish(p, s, l.agent);
    } else if l.Spawn? {
      TrackedAfterSpawn(p, s);
    } else {
      OthersKeepRuns(p, s, l);
    }
  }

  lemma TrackerFollows(s: State, s': State, agent: string)
    requires OneAtATime(s)
    requires || (agent !in s.tracker && s'.tracker.Keys == s.tracker.Keys + {agent} && Tracked(s') == Tracked(s) + multiset{agent})
             || (s'.tracker.Keys == s.tracker.Keys - {agent} && Tracked(s) == Tracked(s') + multiset{agent})
    ensures OneAtATime(s')
  {
    forall a ensures Tracked(s')[a] <= 1 && (a in s'.tracker <==> a in Tracked(s')) {
      assert Tracked(s)[a] <= 1 && (a in s.tracker <==> a in Tracked(s));
    }
  }

  lemma CloseKeepsOne(p: Params, s: State, agent: string)
    requires Enabled(p, s, Close(agent)) && OneAtATime(s)
    ensures OneAtATime(Apply(p, s, Close(agent)))
  {
    TrackedAfterClose(p, s, agent);
    TrackerFollows(s, Apply(p, s, Close(agent)), agent);
  }

  lemma ConfigFailsKeepsOne(p: Params, s: State)
    requires Enabled(p, s, ConfigFails) && OneAtATime(s)
    ensures OneAtATime(Apply(p, s, ConfigFails))
  {
    TrackedAfterConfigFails(p, s);
    TrackerFollows(s, Apply(p, s, ConfigFails), s.scheduler.agent);
  }

  lemma TryStartKeepsOne(p: Params, s: State)
    requires Enabled(p, s, TryStart) && OneAtATime(s) && s.scheduler.agent !in s.tracker
    ensures OneAtATime(Apply(p, s, TryStart))
  {
    TrackedAfterTryStart(p, s);
    TrackerFollows(s, Apply(p, s, TryStart), s.scheduler.agent);
  }

  lemma StepKeepsOne(p: Params, s: State, l: Label)
    requires Enabled(p, s, l) && OneAtATime(s) && !DropsLive(s, l)
    ensures OneAtATime(Apply(p, s, l))
  {
    if l.Close? {
      CloseKeepsOne(p, s, l.agent);
    } else if l.ConfigFails? {
      ConfigFailsKeepsOne(p, s);
    } else if l == TryStart && s.scheduler.agent !in s.tracker {
      TryStartKeepsOne(p, s);
    } else {
      TrackedSame(p, s, l);
      if l == CleanStale { CleanKeepsLive(s); } else if l != TryStart { OthersKeepTracker(p, s, l); }
    }
  }

  /** CleanStale drops a live run exactly when one has been running for more than half an hour. */
  lemma DropsLiveIff(s: State)
    requires OneAtATime(s)
    ensures DropsLive(s, CleanStale) <==>
            exists a :: a in Tracked(s) && a in s.tracker && s.clock - s.tracker[a] > 1800 * 1_000_000_000
  {
  }

  lemma CleanKeepsLive(s: State)
    requires OneAtATime(s) && !DropsLive(s, CleanStale)
    ensures Fresh(s.tracker, s.clock, STALE_AFTER).Keys == s.tracker.Keys
  {
    forall a | a in s.tracker ensures a in Fresh(s.tracker, s.clock, STALE_AFTER) {
      assert a in Tracked(s);
    }
  }

  /** As long as CleanStale drops no live run, the tracker alone gives one run at a time. */
  lemma {:induction false} TrackerGivesOneAtATime(p: Params, states: seq<State>, labels: seq<Label>, i: nat)
    requires Run(p, states, labels) && i < |states|
    requires forall j :: 0 <= j < i ==> !DropsLive(states[j], labels[j])
    ensures OneAtATime(states[i])
    decreases i
  {
    if i > 0 {
      TrackerGivesOneAtATime(p, states, labels, i - 1);
      StepKeepsOne(p, states[i - 1], labels[i - 1]);
    }
  }

  /** So it does as long as every run ends within half an hour. */
  lemma QuickRunsGiveOneAtATime(p: Params, states: seq<State>, labels: seq<Label>, i: nat)
    requires Run(p, states, labels) && i < |states|
    requires forall j, a :: 0 <= j < i && labels[j] == CleanStale && a in states[j].tracker ==>
               states[j].clock - states[j].tracker[a] <= 1800 * 1_000_000_000
    ensures OneAtATime(states[i])
  {
    TrackerGivesOneAtATime(p, states, labels, i);
  }

  /** CleanStale does drop a live run: one that takes more than half an hour. */
  lemma LiveRunDropped(p: Params, agent: string) returns (states: seq<State>, labels: seq<Label>)
    requires !p.limited
    ensures Run(p, states, labels)
    ensures states[|states| - 1].scheduler == Idle && DropsLive(states[|states| - 1], CleanStale)
  {
    labels := [TakeWebhook(agent), Allow, TryStart, RecordStart, Spawn, Advance(STALE_AFTER + 1)];
    var s0 := State(0, Counters(map[], 0, []), map[], Idle, multiset{}, multiset{}, []);
    var s1 := Apply(p, s0, labels[0]);
    var s2 := Apply(p, s1, labels[1]);
    var s3 := Apply(p, s2, labels[2]);
    var s4 := Apply(p, s3, labels[3]);
    var s5 := Apply(p, s4, labels[4]);
    var s6 := Apply(p, s5, labels[5]);
    states := [s0, s1, s2, s3, s4, s5, s6];
    assert agent in s6.tracker && agent !in Fresh(s6.tracker, s6.clock, STALE_AFTER) && agent in Tracked(s6);
  }

  /** Once it drops one, and no limiter stands behind it, the run can go on to two runs of that agent. */
  lemma DropLeadsToTwo(p: Params, states: seq<State>, labels: seq<Label>) returns (states': seq<State>, labels': seq<Label>, agent: string)
    requires !p.limited && Run(p, states, labels)
    requires states[|states| - 1].scheduler == Idle && DropsLive(states[|states| - 1], CleanStale)
    ensures Run(p, states', labels') && states <= states' && labels <= labels'
    ensures Tracked(states'[|states'| - 1])[agent] >= 2
  {
    var s := states[|states| - 1];
    agent :| agent in s.tracker && agent !in Fresh(s.tracker, s.clock, STALE_AFTER) && agent in Tracked(s);
    var s1 := Apply(p, s, CleanStale);
    var s2 := Apply(p, s1, TakeWebhook(agent));
    var s3 := Apply(p, s2, Allow);
    var s4 := Apply(p, s3, TryStart);
    assert Tracked(s4) == Tracked(s) + multiset{agent};
    states' := states + [s1, s2, s3, s4];
    labels' := labels + [CleanStale, TakeWebhook(agent), Allow, TryStart];
    forall i | 0 <= i < |labels'|
      ensures Enabled(p, states'[i], labels'[i]) && states'[i + 1] == Apply(p, states'[i], labels'[i])
    {
      if i < |labels| {
        assert states'[i] == states[i] && states'[i + 1] == states[i + 1];
      }
    }
  }

  /** A scheduled run never takes the tracker past maxConcurrentRuns; a webhook run may. */
  ghost predicate ScheduledRoom(p: Params, s: State) {
    && ((s.scheduler.Due? || s.scheduler.Admitted?) && !s.scheduler.webhook ==> |s.tracker| < p.maxConcurrentRuns)
    && (s.scheduler.Reserved? && !s.scheduler.webhook ==> |s.tracker| <= p.maxConcurrentRuns)
  }

  lemma TryStartKeepsRoom(p: Params, s: State)
    requires Enabled(p, s, TryStart) && ScheduledRoom(p, s)
    ensures ScheduledRoom(p, Apply(p, s, TryStart))
  {
    var a := s.scheduler.agent;
    if a !in s.tracker {
      assert s.tracker[a := s.clock].Keys == s.tracker.Keys + {a};
      assert |s.tracker[a := s.clock]| == |s.tracker.Keys + {a}| == |s.tracker| + 1;
    }
  }

  lemma OthersKeepTracker(p: Params, s: State, l: Label)
    requires Enabled(p, s, l) && l != TryStart && !l.Close? && l != CleanStale && l != ConfigFails
    ensures Apply(p, s, l).tracker == s.tracker
  {
  }

  lemma StepKeepsRoom(p: Params, s: State, l: Label)
    requires Enabled(p, s, l) && ScheduledRoom(p, s)
    ensures ScheduledRoom(p, Apply(p, s, l))
  {
    if l == TryStart {
      TryStartKeepsRoom(p, s);
    } else if l.Close? {
      RemoveShrinks(s.tracker, {l.agent});
    } else if l != CleanStale && l != ConfigFails {
      OthersKeepTracker(p, s, l);
    }
  }

  lemma {:induction false} ScheduledStaysWithinMax(p: Params, states: seq<State>, labels: seq<Label>, i: nat)
    requires Run(p, states, labels) && i < |states|
    ensures ScheduledRoom(p, states[i])
    decreases i
  {
    if i > 0 {
      ScheduledStaysWithinMax(p, states, labels, i - 1);
      StepKeepsRoom(p, states[i - 1], labels[i - 1]);
    }
  }

  lemma RemoveShrinks(m: InFlight, keys: set<string>)
    ensures |m - keys| <= |m|
  {
    assert (m - keys).Keys == m.Keys - keys;
    assert |m.Keys - keys| <= |m.Keys|;
    assert |m - keys| == |(m - keys).Keys|;
  }

  // ---------------------------------------------------------------- the code of one start

  /** The labels can be taken one after the other. */
  ghost predicate Steps(p: Params, s: State, labels: seq<Label>)
    decreases |labels|
  {
    labels == [] || (Enabled(p, s, labels[0]) && Steps(p, Apply(p, s, labels[0]), labels[1..]))
  }

  function After(p: Params, s: State, labels: seq<Label>): State
    requires Steps(p, s, labels)
    decreases |labels|
  {
    if labels == [] then s else After(p, Apply(p, s, labels[0]), labels[1..])
  }

  lemma {:induction false} StepsConcat(p: Params, s: State, first: seq<Label>, second: seq<Label>)
    requires Steps(p, s, first) && Steps(p, After(p, s, first), second)
    ensures Steps(p, s, first + second)
    ensures After(p, s, first + second) == After(p, After(p, s, first), second)
    decreases |first|
  {
    if first == [] {
      assert first + second == second;
    } else {
      assert (first + second)[1..] == first[1..] + second;
      StepsConcat(p, Apply(p, s, first[0]), first[1..], second);
    }
  }

  lemma OneMore(p: Params, s: State, labels: seq<Label>, l: Label)
    requires Steps(p, s, labels) && Enabled(p, After(p, s, labels), l)
    ensures Steps(p, s, labels + [l]) && After(p, s, labels + [l]) == Apply(p, After(p, s, labels), l)
  {
    assert [l][1..] == [];
    StepsConcat(p, s, labels, [l]);
  }

  /** What may happen between two steps of the scheduler: time passes, runs finish, statistics are read. */
  predicate ByOthers(l: Label) { l.Advance? || l.Finish? || l.Close? || l.ReadStats? }

  /** What the others do from each state until the scheduler's next step. */
  type Others = State -> seq<Label>

  ghost predicate Possible(p: Params, others: Others) {
    forall s: State :: Steps(p, s, others(s)) && forall i :: 0 <= i < |others(s)| ==> ByOthers(others(s)[i])
  }

  /** The labels of one step of the scheduler in a run of the others' steps. */
  function Own(labels: seq<Label>): seq<Label> {
    if labels == [] then []
    else Own(labels[..|labels| - 1]) + if ByOthers(labels[|labels| - 1]) then [] else [labels[|labels| - 1]]
  }

  lemma OwnSnoc(labels: seq<Label>, l: Label)
    ensures Own(labels + [l]) == Own(labels) + if ByOthers(l) then [] else [l]
  {
    assert (labels + [l])[..|labels|] == labels;
  }

  lemma OthersKeepScheduler(p: Params, s: State, l: Label)
    requires Enabled(p, s, l) && ByOthers(l)
    ensures Apply(p, s, l).scheduler == s.scheduler
  {
  }

  class Launcher {
    const limiter: Limiter?
    const tracker: RunTracker

    constructor (limiter: Limiter?, tracker: RunTracker)
      ensures this.limiter == limiter && this.tracker == tracker
    {
      this.limiter, this.tracker := limiter, tracker;
    }

    ghost function Repr(): set<object> {
      if limiter == null then {tracker} else {limiter, tracker}
    }

    /** The objects are the protocol state's limiter and tracker; there may be no limiter. */
    ghost predicate Holds(p: Params, s: State)
      reads Repr()
    {
      && (p.limited <==> limiter != null)
      && (limiter != null ==> p.config == limiter.config && s.limiter == limiter.Value())
      && s.tracker == tracker.inflight
    }

    /** One step of the others, on the shared objects. */
    method Other(p: Params, s: State, l: Label)
      requires Holds(p, s) && Enabled(p, s, l) && ByOthers(l)
      modifies Repr()
      ensures Holds(p, Apply(p, s, l))
    {
      match l {
        case Finish(a) => if limiter != null { limiter.RecordComplete(a); }
        case Close(a) => tracker.Complete(a);
        case ReadStats => if limiter != null { limiter.PruneHistory(s.clock); }
        case Advance(_) =>
      }
    }

    /** The others' steps between two steps of the scheduler. */
    method Meanwhile(p: Params, s0: State, labels0: seq<Label>, others: Others) returns (labels: seq<Label>)
      requires Possible(p, others) && Steps(p, s0, labels0) && Holds(p, After(p, s0, labels0))
      modifies Repr()
      ensures Steps(p, s0, labels) && Holds(p, After(p, s0, labels)) && Own(labels) == Own(labels0)
      ensures After(p, s0, labels).scheduler == After(p, s0, labels0).scheduler
    {
      labels := labels0;
      var s := After(p, s0, labels0);
      var more := others(s);
      for i := 0 to |more|
        invariant Steps(p, s0, labels) && s == After(p, s0, labels) && Holds(p, s) && Own(labels) == Own(labels0)
        invariant s.scheduler == After(p, s0, labels0).scheduler
        invariant Steps(p, s, more[i..])
      {
        var l := more[i];
        assert more[i..][0] == l && more[i..][1..] == more[i + 1..];
        Other(p, s, l);
        OthersKeepScheduler(p, s, l);
        OneMore(p, s0, labels, l);
        OwnSnoc(labels, l);
        labels := labels + [l];
        s := Apply(p, s, l);
      }
    }

    /** The rate limit check. */
    method Check(agent: string, webhook: bool, p: Params, s: State, others: Others) returns (ok: bool, labels: seq<Label>)
      requires Possible(p, others) && Holds(p, s) && s.scheduler == Due(agent, webhook)
      modifies Repr()
      ensures Steps(p, s, labels) && Holds(p, After(p, s, labels)) && Own(labels) == [Allow]
      ensures var after := After(p, s, labels).scheduler;
              if ok then after.Admitted? && after.agent == agent && after.webhook == webhook else after == Idle
    {
      labels := Meanwhile(p, s, [], others);
      ok := true;
      if limiter != null { ok := limiter.Allow(agent, webhook, After(p, s, labels).clock); }
      OneMore(p, s, labels, Allow);
      OwnSnoc(labels, Allow);
      labels := labels + [Allow];
    }

    /** The check and the reservation; anything may happen between them. */
    method Reserve(agent: string, webhook: bool, p: Params, s: State, others: Others)
      returns (ok: bool, labels: seq<Label>)
      requires Possible(p, others) && Holds(p, s) && s.scheduler == Due(agent, webhook)
      modifies Repr()
      ensures Steps(p, s, labels) && Holds(p, After(p, s, labels))
      ensures var after := After(p, s, labels).scheduler;
              if ok then after.Reserved? && after.agent == agent && Own(labels) == [Allow, TryStart]
              else after == Idle && Own(labels) <= [Allow, TryStart]
    {
      ok, labels := Check(agent, webhook, p, s, others);
      if !ok {
        return;
      }
      labels := Meanwhile(p, s, labels, others);
      ok := tracker.TryStart(agent, After(p, s, labels).clock);
      OneMore(p, s, labels, TryStart);
      OwnSnoc(labels, TryStart);
      labels := labels + [TryStart];
    }

    /** The recorded start. */
    method Begin(agent: string, p: Params, s: State, labels0: seq<Label>, others: Others) returns (labels: seq<Label>)
      requires Possible(p, others) && Steps(p, s, labels0) && Holds(p, After(p, s, labels0))
      requires After(p, s, labels0).scheduler.Reserved? && After(p, s, labels0).scheduler.agent == agent
      modifies Repr()
      ensures Steps(p, s, labels) && Holds(p, After(p, s, labels)) && After(p, s, labels).scheduler == Started(agent)
      ensures Own(labels) == Own(labels0) + [RecordStart]
    {
      labels := Meanwhile(p, s, labels0, others);
      if limiter != null { limiter.RecordStart(agent, After(p, s, labels).clock); }
      OneMore(p, s, labels, RecordStart);
      OwnSnoc(labels, RecordStart);
      labels := Meanwhile(p, s, labels + [RecordStart], others);
    }

    /** Its undoing when the run config cannot be built: first the tracker, then the limiter. */
    method Undo(agent: string, p: Params, s: State, labels0: seq<Label>, others: Others) returns (labels: seq<Label>)
      requires Possible(p, others) && Steps(p, s, labels0) && Holds(p, After(p, s, labels0))
      requires After(p, s, labels0).scheduler == Started(agent)
      modifies Repr()
      ensures Steps(p, s, labels) && Holds(p, After(p, s, labels)) && After(p, s, labels).scheduler == Idle
      ensures Own(labels) == Own(labels0) + [ConfigFails, ReleaseFailed]
    {
      tracker.Complete(agent);
      OneMore(p, s, labels0, ConfigFails);
      OwnSnoc(labels0, ConfigFails);
      labels := Release(agent, p, s, labels0 + [ConfigFails], others);
    }

    method Release(agent: string, p: Params, s: State, labels0: seq<Label>, others: Others) returns (labels: seq<Label>)
      requires Possible(p, others) && Steps(p, s, labels0) && Holds(p, After(p, s, labels0))
      requires After(p, s, labels0).scheduler == Unreserved(agent)
      modifies Repr()
      ensures Steps(p, s, labels) && Holds(p, After(p, s, labels)) && After(p, s, labels).scheduler == Idle
      ensures Own(labels) == Own(labels0) + [ReleaseFailed]
    {
      labels := Meanwhile(p, s, labels0, others);
      if limiter != null { limiter.RecordComplete(agent); }
      OneMore(p, s, labels, ReleaseFailed);
      OwnSnoc(labels, ReleaseFailed);
      labels := labels + [ReleaseFailed];
    }

    method Launch(agent: string, configOk: bool, p: Params, s: State, labels0: seq<Label>, others: Others)
      returns (labels: seq<Label>)
      requires Possible(p, others) && Steps(p, s, labels0) && Holds(p, After(p, s, labels0))
      requires After(p, s, labels0).scheduler.Reserved? && After(p, s, labels0).scheduler.agent == agent
      modifies Repr()
      ensures Steps(p, s, labels) && Holds(p, After(p, s, labels)) && After(p, s, labels).scheduler == Idle
      ensures Own(labels) == Own(labels0) + [RecordStart] + if configOk then [Spawn] else [ConfigFails, ReleaseFailed]
    {
      labels := Begin(agent, p, s, labels0, others);
      if configOk {
        OneMore(p, s, labels, Spawn);
        OwnSnoc(labels, Spawn);
        labels := labels + [Spawn];
      } else {
        labels := Undo(agent, p, s, labels, others);
      }
    }

    /**
     * triggerRun up to the goroutine, whatever the others do between its locked steps: together
     * they take steps of the protocol.
     */
    method TriggerRun(agent: string, webhook: bool, configOk: bool, p: Params, s: State, others: Others)
      returns (spawned: bool, labels: seq<Label>)
      requires Possible(p, others) && Holds(p, s) && s.scheduler == Due(agent, webhook)
      modifies Repr()
      ensures Steps(p, s, labels) && Holds(p, After(p, s, labels)) && After(p, s, labels).scheduler == Idle
      ensures spawned <==> Own(labels) == [Allow, TryStart, RecordStart, Spawn]
      ensures !spawned ==> Own(labels) <= [Allow, TryStart] || Own(labels) == [Allow, TryStart, RecordStart, ConfigFails, ReleaseFailed]
    {
      var ok;
      ok, labels := Reserve(agent, webhook, p, s, others);
      if !ok {
        return false, labels;
      }
      labels := Launch(agent, configOk, p, s, labels, others);
      return configOk, labels;
    }
  }
}
