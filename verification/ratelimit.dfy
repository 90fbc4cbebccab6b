/** The rate limiter: concurrency counters and an hour of run history. Times are in nanoseconds. */
module RateLimit {

  const HOUR: int := 3600 * 1_000_000_000

  datatype Config = Config(
    maxConcurrentCluster: int,
    maxConcurrentPerAgent: int,
    maxRunsPerHourCluster: int,
    maxRunsPerHourPerAgent: int,
    burstAllowance: int)
  {
    function ConcurrencyLimit(isWebhook: bool): int {
      maxConcurrentCluster + if isWebhook then burstAllowance else 0
    }

    function RateLimit(isWebhook: bool): int {
      maxRunsPerHourCluster + if isWebhook then burstAllowance * 10 else 0
    }
  }

  datatype RunRecord = RunRecord(agentKey: string, time: int)

  /** The limiter's fields as a value. */
  datatype Counters = Counters(concurrent: map<string, int>, totalConc: int, history: seq<RunRecord>)
  {
    function Concurrent(agentKey: string): int {
      if agentKey in concurrent then concurrent[agentKey] else 0
    }
  }

  /** Drop the leading records older than the cutoff. */
  function Prune(history: seq<RunRecord>, cutoff: int): seq<RunRecord> {
    if history != [] && history[0].time < cutoff then Prune(history[1..], cutoff) else history
  }

  function CountSince(history: seq<RunRecord>, agentKey: string, cutoff: int): nat {
    if history == [] then 0
    else
      var last := history[|history| - 1];
      CountSince(history[..|history| - 1], agentKey, cutoff) +
      if last.agentKey == agentKey && last.time >= cutoff then 1 else 0
  }

  /** What Allow decides. */
  predicate Admits(c: Config, k: Counters, agentKey: string, isWebhook: bool, now: int) {
    var recent := Prune(k.history, now - HOUR);
    && k.Concurrent(agentKey) < c.maxConcurrentPerAgent
    && k.totalConc < c.ConcurrencyLimit(isWebhook)
    && CountSince(recent, agentKey, now - HOUR) < c.maxRunsPerHourPerAgent
    && |recent| < c.RateLimit(isWebhook)
  }

  function Pruned(k: Counters, now: int): Counters { k.(history := Prune(k.history, now - HOUR)) }

  function Begun(k: Counters, agentKey: string, now: int): Counters {
    Counters(k.concurrent[agentKey := k.Concurrent(agentKey) + 1], k.totalConc + 1,
             k.history + [RunRecord(agentKey, now)])
  }

  function Ended(k: Counters, agentKey: string): Counters {
    Counters(if k.Concurrent(agentKey) > 0 then k.concurrent[agentKey := k.Concurrent(agentKey) - 1] else k.concurrent,
             if k.totalConc > 0 then k.totalConc - 1 else k.totalConc,
             k.history)
  }

  /** The counters never fall below zero, and only the agent's and the total change. */
  lemma EndedFloors(k: Counters, agentKey: string, other: string)
    requires k.Concurrent(agentKey) >= 0 && k.totalConc >= 0
    ensures Ended(k, agentKey).Concurrent(agentKey) == if k.Concurrent(agentKey) > 0 then k.Concurrent(agentKey) - 1 else 0
    ensures Ended(k, agentKey).totalConc == if k.totalConc > 0 then k.totalConc - 1 else 0
    ensures other != agentKey ==> Ended(k, agentKey).Concurrent(other) == k.Concurrent(other)
    ensures Ended(k, agentKey).history == k.history
  {
  }

  class Limiter {
    const config: Config
    var concurrent: map<string, int>
    var totalConc: int
    var history: seq<RunRecord>

    constructor (config: Config)
      ensures this.config == config && Value() == Counters(map[], 0, [])
    {
      this.config := config;
      concurrent, totalConc, history := map[], 0, [];
    }

    ghost function Value(): Counters
      reads this
    {
      Counters(concurrent, totalConc, history)
    }

    method PruneHistory(now: int)
      modifies this`history
      ensures Value() == Pruned(old(Value()), now)
    {
      var cutoff := now - HOUR;
      var i := 0;
      while i < |history| && history[i].time < cutoff
        invariant 0 <= i <= |history|
        invariant Prune(history, cutoff) == Prune(history[i..], cutoff)
      {
        assert history[i..][1..] == history[i + 1..];
        i := i + 1;
      }
      if i > 0 {
        history := history[i..];
      }
    }

    method CountAgent(agentKey: string, now: int) returns (count: nat)
      ensures count == CountSince(history, agentKey, now - HOUR)
    {
      count := 0;
      for i := 0 to |history|
        invariant count == CountSince(history[..i], agentKey, now - HOUR)
      {
        assert history[..i + 1][..i] == history[..i];
        if history[i].agentKey == agentKey && history[i].time >= now - HOUR {
          count := count + 1;
        }
      }
      assert history[..|history|] == history;
    }

    method Allow(agentKey: string, isWebhook: bool, now: int) returns (allowed: bool)
      modifies this`history
      ensures Value() == Pruned(old(Value()), now)
      ensures allowed == Admits(config, old(Value()), agentKey, isWebhook, now)
    {
      PruneHistory(now);
      if (if agentKey in concurrent then concurrent[agentKey] else 0) >= config.maxConcurrentPerAgent {
        return false;
      }
      var maxConc := config.maxConcurrentCluster;
      if isWebhook {
        maxConc := maxConc + config.burstAllowance;
      }
      if totalConc >= maxConc {
        return false;
      }
      var agentCount := CountAgent(agentKey, now);
      if agentCount >= config.maxRunsPerHourPerAgent {
        return false;
      }
      var maxRate := config.maxRunsPerHourCluster;
      if isWebhook {
        maxRate := maxRate + config.burstAllowance * 10;
      }
      return |history| < maxRate;
    }

    method RecordStart(agentKey: string, now: int)
      modifies this
      ensures Value() == Begun(old(Value()), agentKey, now)
    {
      concurrent := concurrent[agentKey := (if agentKey in concurrent then concurrent[agentKey] else 0) + 1];
      totalConc := totalConc + 1;
      history := history + [RunRecord(agentKey, now)];
    }

    method RecordComplete(agentKey: string)
      modifies this
      ensures Value() == Ended(old(Value()), agentKey)
    {
      if agentKey in concurrent && concurrent[agentKey] > 0 {
        concurrent := concurrent[agentKey := concurrent[agentKey] - 1];
      }
      if totalConc > 0 {
        totalConc := totalConc - 1;
      }
    }
  }

  // ---------------------------------------------------------------- prefix pruning is filtering

  predicate Sorted(history: seq<RunRecord>) {
    forall i, j :: 0 <= i <= j < |history| ==> history[i].time <= history[j].time
  }

  /** On a time-sorted history, dropping the old prefix leaves exactly the recent records. */
  lemma {:induction false} PruneIsFilter(history: seq<RunRecord>, cutoff: int)
    requires Sorted(history)
    ensures |Prune(history, cutoff)| <= |history|
    ensures var d := |history| - |Prune(history, cutoff)|;
            && Prune(history, cutoff) == history[d..]
            && (forall i :: 0 <= i < d ==> history[i].time < cutoff)
            && (forall i :: d <= i < |history| ==> history[i].time >= cutoff)
  {
    if history != [] && history[0].time < cutoff {
      PruneIsFilter(history[1..], cutoff);
      var d := |history| - |Prune(history, cutoff)|;
      assert history[1..][d - 1..] == history[d..];
      assert forall i :: 1 <= i < |history| ==> history[i] == history[1..][i - 1];
    }
  }
}
