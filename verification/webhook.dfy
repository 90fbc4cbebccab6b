/** Webhook registration and the debouncer. */
module Webhook {
  import DataResources


  datatype NamespacedName = NamespacedName(namespace: string, name: string)

  // ---------------------------------------------------------------- debouncer

  /** Time of the last event that fired, by key. */
  type LastFired = map<string, int>

  predicate Fires(last: LastFired, window: int, key: string, now: int) {
    !(key in last && now - last[key] < window)
  }

  function Fired(last: LastFired, window: int, key: string, now: int): LastFired {
    if Fires(last, window, key, now) then last[key := now] else last
  }

  function Cleaned(last: LastFired, window: int, now: int): LastFired {
    map key | key in last && last[key] >= now - 2 * window :: last[key]
  }

  const DEFAULT_WINDOW: int := 30 * 1_000_000_000

  class Debouncer {
    const window: int
    var last: LastFired

    constructor (window: int)
      ensures this.window == (if window <= 0 then 30_000_000_000 else window)
      ensures this.window > 0 && last == map[]
    {
      this.window := if window <= 0 then DEFAULT_WINDOW else window;
      last := map[];
    }

    method ShouldFire(key: string, now: int) returns (fires: bool)
      modifies this
      ensures fires == Fires(old(last), window, key, now)
      ensures last == Fired(old(last), window, key, now)
      ensures fires <==> (key in old(last) ==> now - old(last)[key] >= window)
      ensures last == if fires then old(last)[key := now] else old(last)
    {
      if key in last && now - last[key] < window {
        return false;
      }
      last := last[key := now];
      return true;
    }

    /** Deletes while iterating over the map. */
    method Clean(now: int)
      modifies this
      ensures last == Cleaned(old(last), window, now)
      ensures forall key :: key in last <==> key in old(last) && old(last)[key] >= now - 2 * window
    {
      var keys := last.Keys;
      while keys != {}
        invariant keys <= last.Keys <= old(last).Keys
        invariant forall k :: k in last ==> last[k] == old(last)[k]
        invariant forall k :: k in old(last) && k !in keys ==>
                    (k in last <==> old(last)[k] >= now - 2 * window)
      {
        var key :| key in keys;
        keys := keys - {key};
        if last[key] < now - 2 * window {
          last := last - {key};
        }
      }
    }
  }

  datatype Event = Fire(key: string, at: int) | Clean(at: int)

  predicate ClockRuns(events: seq<Event>) {
    forall i, j :: 0 <= i <= j < |events| ==> events[i].at <= events[j].at
  }

  /** What an event makes of the debouncer's memory. */
  function Changed(last: LastFired, window: int, e: Event): LastFired {
    match e
    case Fire(key, at) => Fired(last, window, key, at)
    case Clean(at) => Cleaned(last, window, at)
  }

  /** The debouncer's memory after the events. */
  function Memory(window: int, events: seq<Event>): LastFired {
    if events == [] then map[]
    else Changed(Memory(window, events[..|events| - 1]), window, events[|events| - 1])
  }

  /** Event `i` is one that fires. */
  predicate FiresAt(window: int, events: seq<Event>, i: nat)
    requires i < |events|
  {
    events[i].Fire? && Fires(Memory(window, events[..i]), window, events[i].key, events[i].at)
  }

  /** An event that fired is remembered, at its time or a later one, until the window is over. */
  lemma {:induction false} FiredIsRemembered(window: int, events: seq<Event>, i: nat, n: nat)
    requires window > 0 && ClockRuns(events) && i < n <= |events| && FiresAt(window, events, i)
    ensures var m := Memory(window, events[..n]);
            || (events[i].key in m && m[events[i].key] >= events[i].at)
            || events[n - 1].at - events[i].at >= window
    decreases n
  {
    assert events[..n][..n - 1] == events[..n - 1];
    if i < n - 1 {
      FiredIsRemembered(window, events, i, n - 1);
      assert events[n - 2].at <= events[n - 1].at;
    }
  }

  /** Everything remembered is the time of an event that fired. */
  lemma {:induction false} MemoryFired(window: int, events: seq<Event>, n: nat, key: string) returns (i: nat)
    requires n <= |events| && key in Memory(window, events[..n])
    ensures i < n && FiresAt(window, events, i)
    ensures events[i].key == key && events[i].at == Memory(window, events[..n])[key]
    decreases n
  {
    assert events[..n][..n - 1] == events[..n - 1];
    var before := Memory(window, events[..n - 1]);
    if key in before && before[key] == Memory(window, events[..n])[key] {
      i := MemoryFired(window, events, n - 1, key);
    } else {
      i := n - 1;
    }
  }

  /** An event fires exactly when no event of its key fired within the window before it. */
  lemma FiresOncePerWindow(window: int, events: seq<Event>, j: nat)
    requires window > 0 && ClockRuns(events) && j < |events| && events[j].Fire?
    ensures FiresAt(window, events, j) <==>
            forall i :: 0 <= i < j && FiresAt(window, events, i) && events[i].key == events[j].key ==>
              events[j].at - events[i].at >= window
  {
    if FiresAt(window, events, j) {
      forall i | 0 <= i < j && FiresAt(window, events, i) && events[i].key == events[j].key
        ensures events[j].at - events[i].at >= window
      {
        FiredIsRemembered(window, events, i, j);
        assert events[j - 1].at <= events[j].at;
      }
    } else {
      var i := MemoryFired(window, events, j, events[j].key);
    }
  }

  /** The answers to the ShouldFire calls. */
  function Answers(last: LastFired, window: int, events: seq<Event>): seq<bool>
    decreases |events|
  {
    if events == [] then []
    else match events[0]
      case Fire(key, at) =>
        [Fires(last, window, key, at)] + Answers(Fired(last, window, key, at), window, events[1..])
      case Clean(at) => Answers(Cleaned(last, window, at), window, events[1..])
  }

  function WithoutClean(events: seq<Event>): seq<Event> {
    if events == [] then []
    else (if events[0].Fire? then [events[0]] else []) + WithoutClean(events[1..])
  }

  /** `small` misses only entries too old to matter at time `t` or later. */
  ghost predicate Indistinguishable(small: LastFired, full: LastFired, window: int, t: int) {
    && (forall k :: k in small ==> k in full && small[k] == full[k])
    && (forall k :: k in full && k !in small ==> t - full[k] >= window)
  }

  lemma {:induction false} CleanIsInvisibleFrom(small: LastFired, full: LastFired, window: int, events: seq<Event>, t: int)
    requires window > 0 && ClockRuns(events) && (events != [] ==> t <= events[0].at)
    requires Indistinguishable(small, full, window, t)
    ensures Answers(small, window, events) == Answers(full, window, WithoutClean(events))
    decreases |events|
  {
    if events != [] {
      var e, rest := events[0], events[1..];
      assert forall i :: 0 <= i < |rest| ==> rest[i] == events[i + 1];
      match e {
        case Fire(key, at) =>
          assert ([e] + WithoutClean(rest))[1..] == WithoutClean(rest);
          assert Fires(small, window, key, at) == Fires(full, window, key, at);
          CleanIsInvisibleFrom(Fired(small, window, key, at), Fired(full, window, key, at), window, rest, at);
        case Clean(at) =>
          assert [] + WithoutClean(rest) == WithoutClean(rest);
          CleanIsInvisibleFrom(Cleaned(small, window, at), full, window, rest, at);
      }
    }
  }

  /** Clean may run at any points: no answer changes. */
  lemma CleanIsInvisible(window: int, events: seq<Event>)
    requires window > 0 && ClockRuns(events)
    ensures Answers(map[], window, events) == Answers(map[], window, WithoutClean(events))
  {
    if events != [] {
      CleanIsInvisibleFrom(map[], map[], window, events, events[0].at);
    }
  }

  // ---------------------------------------------------------------- registration

  type AgentMap = map<string, seq<NamespacedName>>

  datatype TriggerSpec = TriggerSpec(isWebhook: bool, source: string)

  function Lookup(m: AgentMap, source: string): seq<NamespacedName> {
    if source in m then m[source] else []
  }

  function Others(agents: seq<NamespacedName>, agent: NamespacedName): seq<NamespacedName> {
    if agents == [] then []
    else Others(agents[..|agents| - 1], agent) + if agents[|agents| - 1] != agent then [agents[|agents| - 1]] else []
  }

  function Copies(agent: NamespacedName, n: nat): seq<NamespacedName> {
    seq(n, _ => agent)
  }

  predicate Registers(t: TriggerSpec, source: string) { t.isWebhook && t.source != "" && t.source == source }

  function Matching(triggers: seq<TriggerSpec>, source: string): nat {
    if triggers == [] then 0
    else Matching(triggers[..|triggers| - 1], source) + if Registers(triggers[|triggers| - 1], source) then 1 else 0
  }

  ghost predicate NoEmptyList(m: AgentMap) { forall s :: s in m ==> m[s] != [] }

  /** `m'` lists the agent once per matching trigger, after the other agents in their order, and nothing else. */
  ghost predicate Registered(m: AgentMap, agent: NamespacedName, triggers: seq<TriggerSpec>, m': AgentMap) {
    && NoEmptyList(m')
    && forall s :: Lookup(m', s) == Others(Lookup(m, s), agent) + Copies(agent, Matching(triggers, s))
  }

  function Add(m: AgentMap, source: string, agent: NamespacedName): AgentMap {
    m[source := Lookup(m, source) + [agent]]
  }

  /** The map after one more trigger. */
  function AddTrigger(m: AgentMap, t: TriggerSpec, agent: NamespacedName): AgentMap {
    if t.isWebhook && t.source != "" then Add(m, t.source, agent) else m
  }

  lemma LookupAfterTrigger(m: AgentMap, t: TriggerSpec, agent: NamespacedName, s: string)
    ensures Lookup(AddTrigger(m, t, agent), s) == Lookup(m, s) + if Registers(t, s) then [agent] else []
  {
  }

  lemma CopiesAfterTrigger(triggers: seq<TriggerSpec>, t: TriggerSpec, agent: NamespacedName, s: string)
    ensures Copies(agent, Matching(triggers + [t], s)) ==
            Copies(agent, Matching(triggers, s)) + if Registers(t, s) then [agent] else []
  {
    assert (triggers + [t])[..|triggers|] == triggers;
  }

  lemma RegisterOneMore(m: AgentMap, agent: NamespacedName, triggers: seq<TriggerSpec>, t: TriggerSpec, m': AgentMap)
    requires Registered(m, agent, triggers, m')
    ensures Registered(m, agent, triggers + [t], AddTrigger(m', t, agent))
  {
    forall s
      ensures Lookup(AddTrigger(m', t, agent), s) ==
              Others(Lookup(m, s), agent) + Copies(agent, Matching(triggers + [t], s))
    {
      LookupAfterTrigger(m', t, agent, s);
      CopiesAfterTrigger(triggers, t, agent, s);
    }
  }

  /** An event handed to the scheduler. */
  datatype WebhookTrigger = WebhookTrigger(agent: NamespacedName, source: string)

  const CHANNEL_SIZE: nat := 100

  function DebounceKey(source: string, agent: NamespacedName): string {
    source + "/" + agent.namespace + "/" + agent.name
  }

  /** The sources outside `left` have lost the agent; those in `left` are as they were. */
  ghost predicate Unregistering(before: AgentMap, now: AgentMap, left: set<string>, agent: NamespacedName) {
    && left <= now.Keys <= before.Keys
    && (forall s :: s in left ==> now[s] == before[s])
    && (forall s :: s in now && s !in left ==> now[s] != [])
    && (forall s :: s !in left ==> Lookup(now, s) == Others(Lookup(before, s), agent))
  }

  lemma SourceFiltered(before: AgentMap, now: AgentMap, left: set<string>, agent: NamespacedName, source: string)
    requires Unregistering(before, now, left, agent) && source in left
    ensures var filtered := Others(now[source], agent);
            var after := if filtered == [] then now - {source} else now[source := filtered];
            Unregistering(before, after, left - {source}, agent)
  {
    var filtered := Others(now[source], agent);
    var after := if filtered == [] then now - {source} else now[source := filtered];
    forall s | s !in left - {source} ensures Lookup(after, s) == Others(Lookup(before, s), agent) {
      if s != source { assert Lookup(after, s) == Lookup(now, s); }
    }
  }

  class WebhookHandler {
    const debouncer: Debouncer
    var agentMap: AgentMap
    var queue: seq<WebhookTrigger>

    constructor (debouncer: Debouncer)
      ensures this.debouncer == debouncer && agentMap == map[] && queue == []
    {
      this.debouncer := debouncer;
      agentMap, queue := map[], [];
    }

    method RegisterAgent(source: string, agent: NamespacedName)
      modifies this`agentMap
      ensures agentMap == Add(old(agentMap), source, agent)
    {
      agentMap := agentMap[source := Lookup(agentMap, source) + [agent]];
    }

    method FilterOut(agents: seq<NamespacedName>, agent: NamespacedName) returns (filtered: seq<NamespacedName>)
      ensures filtered == Others(agents, agent)
    {
      filtered := [];
      for i := 0 to |agents|
        invariant filtered == Others(agents[..i], agent)
      {
        assert agents[..i + 1][..i] == agents[..i];
        if agents[i] != agent {
          filtered := filtered + [agents[i]];
        }
      }
      assert agents[..|agents|] == agents;
    }

    method UnregisterAgent(agent: NamespacedName)
      modifies this`agentMap
      ensures NoEmptyList(agentMap)
      ensures forall s :: Lookup(agentMap, s) == Others(Lookup(old(agentMap), s), agent)
    {
      var sources := agentMap.Keys;
      while sources != {}
        invariant Unregistering(old(agentMap), agentMap, sources, agent)
      {
        var source :| source in sources;
        SourceFiltered(old(agentMap), agentMap, sources, agent, source);
        sources := sources - {source};
        var filtered := FilterOut(agentMap[source], agent);
        if |filtered| == 0 {
          agentMap := agentMap - {source};
        } else {
          agentMap := agentMap[source := filtered];
        }
      }
    }

    method RegisterWebhookTriggers(agent: NamespacedName, triggers: seq<TriggerSpec>)
      modifies this`agentMap
      ensures Registered(old(agentMap), agent, triggers, agentMap)
    {
      UnregisterAgent(agent);
      assert forall s :: Copies(agent, Matching(triggers[..0], s)) == [];
      for i := 0 to |triggers|
        invariant Registered(old(agentMap), agent, triggers[..i], agentMap)
      {
        assert triggers[..i + 1] == triggers[..i] + [triggers[i]];
        RegisterOneMore(old(agentMap), agent, triggers[..i], triggers[i], agentMap);
        if triggers[i].isWebhook && triggers[i].source != "" {
          RegisterAgent(triggers[i].source, agent);
        }
      }
      assert triggers[..|triggers|] == triggers;
    }

    /** What other requests and the cleaner do to the debouncer meanwhile. */
    method Meanwhile(events: seq<Event>, ghost log: seq<Event>)
      requires debouncer.last == Memory(debouncer.window, log)
      modifies debouncer
      ensures debouncer.last == Memory(debouncer.window, log + events)
    {
      assert log + events[..0] == log;
      for i := 0 to |events|
        invariant debouncer.last == Memory(debouncer.window, log + events[..i])
      {
        assert log + events[..i + 1] == (log + events[..i]) + [events[i]];
        MemorySnoc(debouncer.window, log + events[..i], events[i]);
        match events[i] {
          case Fire(key, at) => var _ := debouncer.ShouldFire(key, at);
          case Clean(at) => debouncer.Clean(at);
        }
      }
      assert events[..|events|] == events;
    }

    /** The scheduler takes triggers from the channel, and other requests put theirs in. */
    method Channel(drained: nat, arriving: seq<WebhookTrigger>) returns (ghost taken: seq<WebhookTrigger>)
      requires |queue| <= CHANNEL_SIZE
      modifies this`queue
      ensures var kept := |old(queue)| - Least(drained, |old(queue)|);
              var n := Least(|arriving|, CHANNEL_SIZE - kept);
              |queue| == kept + n <= CHANNEL_SIZE && taken + queue == old(queue) + arriving[..n]
    {
      var gone := Least(drained, |queue|);
      taken := queue[..gone];
      queue := queue[gone..];
      queue := queue + arriving[..Least(|arriving|, CHANNEL_SIZE - |queue|)];
    }

    /** One agent: what others do, the debouncer's answer, the channel. */
    method Offer(d: Delivery, k: nat, ghost log: seq<Event>, ghost before: nat)
      returns (sent: bool, ghost taken: seq<WebhookTrigger>)
      requires d.Valid() && k < |d.agents| && |queue| == d.Filled(log, debouncer.window, before, k) <= CHANNEL_SIZE
      requires debouncer.last == Memory(debouncer.window, log + d.Events(k))
      modifies this`queue, debouncer
      ensures debouncer.last == Memory(debouncer.window, log + d.Events(k + 1))
      ensures sent == d.Sends(log, debouncer.window, before, k)
      ensures |queue| == d.Filled(log, debouncer.window, before, k + 1) <= CHANNEL_SIZE
      ensures taken + queue == old(queue) + d.Enters(log, debouncer.window, before, k)
    {
      Meanwhile(d.between[k], log + d.Events(k));
      taken := Channel(d.drains[k], d.arrivals[k]);
      ghost var window := debouncer.window;
      assert d.Kept(log, window, before, k) == |old(queue)| - Least(d.drains[k], |old(queue)|);
      assert d.Accepted(log, window, before, k) == Least(|d.arrivals[k]|, CHANNEL_SIZE - d.Kept(log, window, before, k));
      assert |queue| == d.Left(log, window, before, k);
      ghost var accepted := taken + queue;
      sent := debouncer.ShouldFire(d.Key(k), d.times[k]);
      EventsSnoc(d, log, debouncer.window, k);
      sent := sent && |queue| < CHANNEL_SIZE;
      if sent {
        queue := queue + [WebhookTrigger(d.agents[k], d.source)];
        assert taken + queue == accepted + [WebhookTrigger(d.agents[k], d.source)];
      }
    }

    /**
     * The trigger loop of ServeHTTP: the clock is read for every agent, other requests and the
     * scheduler go on in between, and a full channel drops the trigger, which stays debounced.
     */
    method Deliver(d: Delivery, ghost log: seq<Event>) returns (triggered: nat, ghost taken: seq<WebhookTrigger>)
      requires d.Valid() && d.agents == Lookup(agentMap, d.source) && |queue| <= CHANNEL_SIZE
      requires debouncer.last == Memory(debouncer.window, log)
      modifies this`queue, debouncer
      ensures debouncer.last == Memory(debouncer.window, log + d.Events(|d.agents|))
      ensures taken + queue == old(queue) + d.Entered(log, debouncer.window, |old(queue)|, |d.agents|)
      ensures |queue| == d.Filled(log, debouncer.window, |old(queue)|, |d.agents|) <= CHANNEL_SIZE
      ensures triggered == d.Triggered(log, debouncer.window, |old(queue)|, |d.agents|)
    {
      triggered, taken := 0, [];
      ghost var window, before := debouncer.window, |queue|;
      assert log + d.Events(0) == log;
      for k := 0 to |d.agents|
        invariant debouncer.last == Memory(window, log + d.Events(k))
        invariant taken + queue == old(queue) + d.Entered(log, window, before, k)
        invariant |queue| == d.Filled(log, window, before, k) <= CHANNEL_SIZE
        invariant triggered == d.Triggered(log, window, before, k)
      {
        var sent;
        ghost var more;
        ghost var queued := queue;
        sent, more := Offer(d, k, log, before);
        StillAccounted(old(queue), d.Entered(log, window, before, k), taken, queued, more, queue,
                       d.Enters(log, window, before, k));
        taken := taken + more;
        if sent {
          triggered := triggered + 1;
        }
      }
    }
  }

  function Least(a: nat, b: nat): nat { if a <= b then a else b }

  /**
   * One request: the agents of its source and the time at which the debouncer is asked for each;
   * what others do to the debouncer, how many triggers the scheduler takes from the channel and
   * which triggers of other requests arrive there, before each.
   */
  datatype Delivery = Delivery(
    source: string,
    agents: seq<NamespacedName>,
    times: seq<int>,
    between: seq<seq<Event>>,
    drains: seq<nat>,
    arrivals: seq<seq<WebhookTrigger>>)
  {
    predicate Valid() { |agents| == |times| == |between| == |drains| == |arrivals| }

    function Key(i: nat): string
      requires i < |agents|
    {
      DebounceKey(source, agents[i])
    }

    /** Everything the debouncer is asked until the answer for agent `n - 1`. */
    function Events(n: nat): seq<Event>
      requires Valid() && n <= |agents|
    {
      if n == 0 then [] else Events(n - 1) + between[n - 1] + [Fire(Key(n - 1), times[n - 1])]
    }

    /** The debouncer, asked for `log` before this request, answers yes for agent `i`. */
    predicate FiresFor(log: seq<Event>, window: int, i: nat)
      requires Valid() && i < |agents|
    {
      Fires(Memory(window, log + Events(i) + between[i]), window, Key(i), times[i])
    }

    /** How full the channel is after `n` agents. */
    function Filled(log: seq<Event>, window: int, before: nat, n: nat): nat
      requires Valid() && n <= |agents|
      decreases n, 0
    {
      if n == 0 then before
      else Left(log, window, before, n - 1) + if Sends(log, window, before, n - 1) then 1 else 0
    }

    /** How much of it the scheduler leaves before agent `i`. */
    function Kept(log: seq<Event>, window: int, before: nat, i: nat): nat
      requires Valid() && i < |agents|
      decreases i, 1
    {
      var full := Filled(log, window, before, i);
      full - Least(drains[i], full)
    }

    /** How many of the triggers that arrive then find room. */
    function Accepted(log: seq<Event>, window: int, before: nat, i: nat): (n: nat)
      requires Valid() && i < |agents|
      ensures n <= |arrivals[i]|
      decreases i, 2
    {
      var kept := Kept(log, window, before, i);
      Least(|arrivals[i]|, if kept <= CHANNEL_SIZE then CHANNEL_SIZE - kept else 0)
    }

    /** How full it is when the trigger of agent `i` is offered. */
    function Left(log: seq<Event>, window: int, before: nat, i: nat): nat
      requires Valid() && i < |agents|
      decreases i, 3
    {
      Kept(log, window, before, i) + Accepted(log, window, before, i)
    }

    predicate Sends(log: seq<Event>, window: int, before: nat, i: nat)
      requires Valid() && i < |agents|
      decreases i, 4
    {
      FiresFor(log, window, i) && Left(log, window, before, i) < CHANNEL_SIZE
    }

    /** The triggers that enter the channel around agent `i`: those that arrive, and its own. */
    function Enters(log: seq<Event>, window: int, before: nat, i: nat): seq<WebhookTrigger>
      requires Valid() && i < |agents|
    {
      arrivals[i][..Accepted(log, window, before, i)] +
      if Sends(log, window, before, i) then [WebhookTrigger(agents[i], source)] else []
    }

    function Entered(log: seq<Event>, window: int, before: nat, n: nat): seq<WebhookTrigger>
      requires Valid() && n <= |agents|
    {
      if n == 0 then [] else Entered(log, window, before, n - 1) + Enters(log, window, before, n - 1)
    }

    /** How many of the first `n` agents have their trigger sent. */
    function Triggered(log: seq<Event>, window: int, before: nat, n: nat): nat
      requires Valid() && n <= |agents|
    {
      if n == 0 then 0
      else Triggered(log, window, before, n - 1) + if Sends(log, window, before, n - 1) then 1 else 0
    }

    /** How many triggers are offered to the channel until then. */
    function Offered(n: nat): nat
      requires Valid() && n <= |agents|
    {
      if n == 0 then 0 else Offered(n - 1) + |arrivals[n - 1]| + 1
    }

    /** Time does not run backwards. */
    ghost predicate Timely(log: seq<Event>)
      requires Valid()
    {
      ClockRuns(log + Events(|agents|))
    }

    /** No debounce key fires twice. */
    ghost predicate OnceEach(log: seq<Event>, window: int)
      requires Valid()
    {
      forall i, j :: 0 <= i < j < |agents| && FiresFor(log, window, i) && FiresFor(log, window, j) ==> Key(i) != Key(j)
    }

    /** An agent that is listed twice is asked for again within the window. */
    predicate Brisk(window: int)
      requires Valid()
    {
      forall i, j :: 0 <= i < j < |agents| && Key(i) == Key(j) ==> times[j] - times[i] < window
    }

    /** The place of agent `i`'s question in `log` and everything after it. */
    function Place(log: seq<Event>, i: nat): nat
      requires Valid() && i < |agents|
    {
      |log| + |Events(i)| + |between[i]|
    }
  }

  /** Triggers are only moved from the channel to the scheduler. */
  lemma StillAccounted(was: seq<WebhookTrigger>, sent: seq<WebhookTrigger>, taken: seq<WebhookTrigger>, queue: seq<WebhookTrigger>,
                       more: seq<WebhookTrigger>, queue': seq<WebhookTrigger>, now: seq<WebhookTrigger>)
    requires taken + queue == was + sent && more + queue' == queue + now
    ensures taken + more + queue' == was + (sent + now)
  {
    assert taken + more + queue' == taken + (more + queue');
    assert taken + (queue + now) == (taken + queue) + now;
    assert was + sent + now == was + (sent + now);
  }

  lemma MemorySnoc(window: int, log: seq<Event>, e: Event)
    ensures Memory(window, log + [e]) == Changed(Memory(window, log), window, e)
  {
    assert (log + [e])[..|log|] == log;
  }

  lemma EventsSnoc(d: Delivery, log: seq<Event>, window: int, k: nat)
    requires d.Valid() && k < |d.agents|
    ensures Memory(window, log + d.Events(k + 1)) ==
            Fired(Memory(window, log + d.Events(k) + d.between[k]), window, d.Key(k), d.times[k])
  {
    var asked := log + d.Events(k) + d.between[k];
    assert log + d.Events(k + 1) == asked + [Fire(d.Key(k), d.times[k])];
    MemorySnoc(window, asked, Fire(d.Key(k), d.times[k]));
  }

  lemma {:induction false} EventsGrow(d: Delivery, m: nat, n: nat)
    requires d.Valid() && m <= n <= |d.agents|
    ensures d.Events(m) <= d.Events(n)
    decreases n
  {
    if m < n { EventsGrow(d, m, n - 1); }
  }

  /** Agent `i`'s question among all the events: where it stands, and that it fires there exactly when it does. */
  lemma PlaceOf(d: Delivery, log: seq<Event>, window: int, i: nat)
    requires d.Valid() && i < |d.agents|
    ensures var all, p := log + d.Events(|d.agents|), d.Place(log, i);
            && p < |all| && all[p] == Fire(d.Key(i), d.times[i])
            && (FiresAt(window, all, p) <==> d.FiresFor(log, window, i))
  {
    var all, p := log + d.Events(|d.agents|), d.Place(log, i);
    EventsGrow(d, i + 1, |d.agents|);
    var asked := log + d.Events(i) + d.between[i];
    assert log + d.Events(i + 1) == asked + [Fire(d.Key(i), d.times[i])];
    assert log + d.Events(i + 1) <= all;
    assert all[..p] == asked;
  }

  lemma PlacesInOrder(d: Delivery, log: seq<Event>, i: nat, j: nat)
    requires d.Valid() && i < j < |d.agents|
    ensures d.Place(log, i) < d.Place(log, j)
  {
    EventsGrow(d, i + 1, j);
  }

  /**
   * However others ask the debouncer before and meanwhile, one request fires each key at most once,
   * if and only if every agent that is listed twice is asked for again within the window.
   */
  lemma EachAgentOncePerRequest(
    source: string, agents: seq<NamespacedName>, times: seq<int>,
    drains: seq<nat>, arrivals: seq<seq<WebhookTrigger>>, window: int)
    requires |agents| == |times| == |drains| == |arrivals| && window > 0
    requires forall i, j :: 0 <= i <= j < |times| ==> times[i] <= times[j]
    ensures (forall log, between | |between| == |agents| && Delivery(source, agents, times, between, drains, arrivals).Timely(log) ::
               Delivery(source, agents, times, between, drains, arrivals).OnceEach(log, window)) <==>
            Delivery(source, agents, times, Nothing(|agents|), drains, arrivals).Brisk(window)
  {
    var alone := Delivery(source, agents, times, Nothing(|agents|), drains, arrivals);
    if alone.Brisk(window) {
      forall log, between | |between| == |agents| && Delivery(source, agents, times, between, drains, arrivals).Timely(log)
        ensures Delivery(source, agents, times, between, drains, arrivals).OnceEach(log, window)
      {
        BriskFiresOnce(Delivery(source, agents, times, between, drains, arrivals), log, window);
      }
    } else {
      var i, j :| 0 <= i < j < |agents| && alone.Key(i) == alone.Key(j) && times[j] - times[i] >= window;
      AloneIsTimely(alone);
      SlowFiresTwice(alone, window, i, j);
    }
  }

  /** Nobody else asks. */
  function Nothing(n: nat): seq<seq<Event>> { seq(n, _ => []) }

  lemma {:induction false} AloneAt(d: Delivery, n: nat)
    requires d.Valid() && d.between == Nothing(|d.agents|) && n <= |d.agents|
    ensures |d.Events(n)| == n && forall k :: 0 <= k < n ==> d.Events(n)[k].at == d.times[k]
  {
    if n > 0 { AloneAt(d, n - 1); }
  }

  lemma AloneIsTimely(d: Delivery)
    requires d.Valid() && d.between == Nothing(|d.agents|)
    requires forall i, j :: 0 <= i <= j < |d.times| ==> d.times[i] <= d.times[j]
    ensures ClockRuns(d.Events(|d.agents|)) && d.Timely([])
  {
    AloneAt(d, |d.agents|);
    SameTimes(d.Events(|d.agents|), d.times);
    assert [] + d.Events(|d.agents|) == d.Events(|d.agents|);
  }

  lemma SameTimes(events: seq<Event>, times: seq<int>)
    requires |events| == |times| && forall k :: 0 <= k < |events| ==> events[k].at == times[k]
    requires forall i, j :: 0 <= i <= j < |times| ==> times[i] <= times[j]
    ensures ClockRuns(events)
  {
  }

  lemma BriskFiresOnce(d: Delivery, log: seq<Event>, window: int)
    requires d.Valid() && window > 0 && d.Timely(log) && d.Brisk(window)
    ensures d.OnceEach(log, window)
  {
    var all := log + d.Events(|d.agents|);
    forall i, j | 0 <= i < j < |d.agents| && d.FiresFor(log, window, i) && d.FiresFor(log, window, j)
      ensures d.Key(i) != d.Key(j)
    {
      PlaceOf(d, log, window, i);
      PlaceOf(d, log, window, j);
      PlacesInOrder(d, log, i, j);
      FiresOncePerWindow(window, all, d.Place(log, j));
    }
  }

  lemma AlonePlace(d: Delivery, window: int, i: nat)
    requires d.Valid() && d.between == Nothing(|d.agents|) && i < |d.agents| == |d.Events(|d.agents|)|
    ensures d.Events(|d.agents|)[i] == Fire(d.Key(i), d.times[i])
    ensures FiresAt(window, d.Events(|d.agents|), i) <==> d.FiresFor([], window, i)
  {
    var all := d.Events(|d.agents|);
    assert [] + all == all;
    AloneAt(d, i);
    assert d.Place([], i) == i;
    PlaceOf(d, [], window, i);
  }

  /** Alone and with an empty memory, an agent fires exactly when it did not fire within the window before. */
  lemma AloneFiresIff(d: Delivery, window: int, j: nat)
    requires d.Valid() && window > 0 && ClockRuns(d.Events(|d.agents|)) && d.between == Nothing(|d.agents|) && j < |d.agents|
    ensures d.FiresFor([], window, j) <==>
            forall i :: 0 <= i < j && d.FiresFor([], window, i) && d.Key(i) == d.Key(j) ==> d.times[j] - d.times[i] >= window
  {
    var all := d.Events(|d.agents|);
    AloneAt(d, |d.agents|);
    AlonePlace(d, window, j);
    FiresOncePerWindow(window, all, j);
    forall i | 0 <= i < j
      ensures all[i] == Fire(d.Key(i), d.times[i]) && (FiresAt(window, all, i) <==> d.FiresFor([], window, i))
    {
      AlonePlace(d, window, i);
    }
  }

  lemma SlowFiresTwice(d: Delivery, window: int, i: nat, j: nat)
    requires d.Valid() && window > 0 && ClockRuns(d.Events(|d.agents|)) && d.between == Nothing(|d.agents|)
    requires forall i, j :: 0 <= i <= j < |d.times| ==> d.times[i] <= d.times[j]
    requires i < j < |d.agents| && d.Key(i) == d.Key(j) && d.times[j] - d.times[i] >= window
    ensures !d.OnceEach([], window)
  {
    var first := FirstWithKey(d, i);
    AloneFiresIff(d, window, first);
    AloneFiresIff(d, window, j);
    assert d.times[first] <= d.times[i];
    if !d.FiresFor([], window, j) {
      var k :| 0 <= k < j && d.FiresFor([], window, k) && d.Key(k) == d.Key(j) && d.times[j] - d.times[k] < window;
      assert first < k;
    }
  }

  lemma {:induction false} FirstWithKey(d: Delivery, i: nat) returns (first: nat)
    requires i < |d.agents|
    ensures first <= i && d.Key(first) == d.Key(i) && forall k :: 0 <= k < first ==> d.Key(k) != d.Key(i)
  {
    first := i;
    if k :| 0 <= k < i && d.Key(k) == d.Key(i) { first := FirstWithKey(d, k); }
  }

  /** A loop shorter than the window is brisk for every list of agents, and no other loop is. */
  lemma ShortLoopsAreBrisk(
    source: string, times: seq<int>, between: seq<seq<Event>>,
    drains: seq<nat>, arrivals: seq<seq<WebhookTrigger>>, window: int)
    requires |times| == |between| == |drains| == |arrivals|
    requires forall i, j :: 0 <= i <= j < |times| ==> times[i] <= times[j]
    ensures (forall agents :: |agents| == |times| ==> Delivery(source, agents, times, between, drains, arrivals).Brisk(window)) <==>
            |times| < 2 || times[|times| - 1] - times[0] < window
  {
    if |times| >= 2 && times[|times| - 1] - times[0] >= window {
      var d := Delivery(source, Copies(NamespacedName("", ""), |times|), times, between, drains, arrivals);
      assert d.Key(0) == d.Key(|times| - 1);
      assert !d.Brisk(window);
    }
  }

  /** An agent fires exactly when its key did not fire within the window before, in this request or another. */
  lemma FiresForIff(d: Delivery, log: seq<Event>, window: int, j: nat)
    requires d.Valid() && window > 0 && d.Timely(log) && j < |d.agents|
    ensures var all := log + d.Events(|d.agents|);
            d.Place(log, j) < |all| &&
            (d.FiresFor(log, window, j) <==>
             forall p :: 0 <= p < d.Place(log, j) && FiresAt(window, all, p) && all[p].key == d.Key(j) ==>
               d.times[j] - all[p].at >= window)
  {
    PlaceOf(d, log, window, j);
    FiresOncePerWindow(window, log + d.Events(|d.agents|), d.Place(log, j));
  }

  /** After its turn every agent's key has fired within the window, in this request or another. */
  lemma EveryAgentDebounced(d: Delivery, log: seq<Event>, window: int, j: nat) returns (p: nat)
    requires d.Valid() && window > 0 && d.Timely(log) && j < |d.agents|
    ensures var all := log + d.Events(|d.agents|);
            && p <= d.Place(log, j) < |all| && FiresAt(window, all, p)
            && all[p].key == d.Key(j) && d.times[j] - all[p].at < window
  {
    var all := log + d.Events(|d.agents|);
    PlaceOf(d, log, window, j);
    p := d.Place(log, j);
    FiresOncePerWindow(window, all, p);
    if !FiresAt(window, all, p) {
      p :| 0 <= p < d.Place(log, j) && FiresAt(window, all, p) && all[p].key == d.Key(j) && d.times[j] - all[p].at < window;
    }
  }

  /** Every agent whose key did not fire within the window before the request has it fired for since. */
  lemma NoAgentForgotten(d: Delivery, log: seq<Event>, window: int, j: nat) returns (p: nat)
    requires d.Valid() && window > 0 && d.Timely(log) && j < |d.agents|
    requires forall i :: 0 <= i < |log| && FiresAt(window, log, i) && log[i].key == d.Key(j) ==> d.times[j] - log[i].at >= window
    ensures var all := log + d.Events(|d.agents|);
            |log| <= p <= d.Place(log, j) < |all| && FiresAt(window, all, p) && all[p].key == d.Key(j)
  {
    var all := log + d.Events(|d.agents|);
    p := EveryAgentDebounced(d, log, window, j);
    if p < |log| { FiresAtPrefix(window, log, d.Events(|d.agents|), p); }
  }

  lemma FiresAtPrefix(window: int, log: seq<Event>, more: seq<Event>, p: nat)
    requires p < |log|
    ensures (log + more)[p] == log[p] && (FiresAt(window, log + more, p) <==> FiresAt(window, log, p))
  {
    assert (log + more)[..p] == log[..p];
  }

  /** A channel with room for everything that is offered drops nothing. */
  lemma {:induction false} NothingDropped(d: Delivery, log: seq<Event>, window: int, before: nat, n: nat)
    requires d.Valid() && n <= |d.agents| && before + d.Offered(n) <= 100
    ensures d.Filled(log, window, before, n) <= before + d.Offered(n)
    ensures forall i :: 0 <= i < n ==> (d.Sends(log, window, before, i) <==> d.FiresFor(log, window, i))
  {
    if n > 0 {
      var i := n - 1;
      NothingDropped(d, log, window, before, i);
      assert d.Kept(log, window, before, i) <= d.Filled(log, window, before, i);
      assert d.Accepted(log, window, before, i) <= |d.arrivals[i]|;
      assert d.Left(log, window, before, i) <= before + d.Offered(i) + |d.arrivals[i]| < CHANNEL_SIZE;
      assert d.Sends(log, window, before, i) <==> d.FiresFor(log, window, i);
    }
  }

  lemma {:induction false} OthersConcat(a: seq<NamespacedName>, b: seq<NamespacedName>, agent: NamespacedName)
    ensures Others(a + b, agent) == Others(a, agent) + Others(b, agent)
    decreases |b|
  {
    if b == [] {
      assert a + b == a;
    } else {
      assert (a + b)[..|a + b| - 1] == a + b[..|b| - 1];
      OthersConcat(a, b[..|b| - 1], agent);
    }
  }

  /** Exactly the agent is left out. */
  lemma OthersOfOne(b: NamespacedName, agent: NamespacedName)
    ensures Others([b], agent) == (if b == agent then [] else [b]) && Others([], agent) == []
  {
    assert [b][..0] == [];
  }

  lemma {:induction false} OthersKeep(agents: seq<NamespacedName>, agent: NamespacedName, b: NamespacedName)
    ensures multiset(Others(agents, agent))[b] == if b == agent then 0 else multiset(agents)[b]
    decreases |agents|
  {
    if agents != [] {
      var n := |agents| - 1;
      OthersKeep(agents[..n], agent, b);
      assert multiset(agents)[b] == multiset(agents[..n])[b] + (if agents[n] == b then 1 else 0) by {
        assert agents == agents[..n] + [agents[n]];
      }
    }
  }

  /** How many of the triggers are webhooks of this source. */
  function Webhooks(triggers: seq<TriggerSpec>, source: string): nat {
    if triggers == [] then 0
    else
      var t := triggers[|triggers| - 1];
      Webhooks(triggers[..|triggers| - 1], source) + if t.isWebhook && t.source == source && source != "" then 1 else 0
  }

  lemma {:induction false} MatchingCounts(triggers: seq<TriggerSpec>, source: string)
    ensures Matching(triggers, source) == Webhooks(triggers, source)
    decreases |triggers|
  {
    if triggers != [] { MatchingCounts(triggers[..|triggers| - 1], source); }
  }

  /** Registering lists the agent once per matching trigger and every other agent as often as before. */
  lemma RegisteredCounts(m: AgentMap, agent: NamespacedName, triggers: seq<TriggerSpec>, m': AgentMap, source: string, b: NamespacedName)
    requires Registered(m, agent, triggers, m')
    ensures multiset(Lookup(m', source))[b] ==
            if b == agent then Webhooks(triggers, source) else multiset(Lookup(m, source))[b]
  {
    OthersKeep(Lookup(m, source), agent, b);
    MatchingCounts(triggers, source);
    CopiesCount(agent, Matching(triggers, source), b);
  }

  lemma {:induction false} CopiesCount(agent: NamespacedName, n: nat, b: NamespacedName)
    ensures multiset(Copies(agent, n))[b] == if b == agent then n else 0
  {
    if n > 0 {
      CopiesCount(agent, n - 1, b);
      assert Copies(agent, n) == Copies(agent, n - 1) + [agent];
    }
  }

  /** Different agents of a source, and the same agent of different sources, are debounced apart. */
  lemma DebounceKeyInjective(source: string, agent: NamespacedName, source': string, agent': NamespacedName)
    requires '/' !in agent.namespace && '/' !in agent.name && '/' !in agent'.namespace && '/' !in agent'.name
    requires DebounceKey(source, agent) == DebounceKey(source', agent')
    ensures source == source' && agent == agent'
  {
    DataResources.JoinKeyInjective(
      DataResources.DataRef(source, agent.namespace, agent.name), DataResources.DataRef(source', agent'.namespace, agent'.name));
  }

  lemma {:induction false} OthersTwice(agents: seq<NamespacedName>, agent: NamespacedName)
    ensures Others(Others(agents, agent), agent) == Others(agents, agent)
    decreases |agents|
  {
    if agents != [] {
      var shorter, last := agents[..|agents| - 1], agents[|agents| - 1];
      OthersTwice(shorter, agent);
      OthersConcat(Others(shorter, agent), [last], agent);
      assert Others(shorter, agent) + [] == Others(shorter, agent);
    }
  }

  lemma {:induction false} OthersOfCopies(agent: NamespacedName, n: nat)
    ensures Others(Copies(agent, n), agent) == []
  {
    if n > 0 {
      assert Copies(agent, n)[..n - 1] == Copies(agent, n - 1);
      OthersOfCopies(agent, n - 1);
    }
  }

  lemma SameLookups(m: AgentMap, m': AgentMap)
    requires NoEmptyList(m) && NoEmptyList(m') && forall s :: Lookup(m, s) == Lookup(m', s)
    ensures m == m'
  {
    forall s ensures s in m <==> s in m' {
      assert Lookup(m, s) == Lookup(m', s);
    }
    assert forall s :: s in m ==> m[s] == Lookup(m, s) == Lookup(m', s) == m'[s];
  }

  lemma OthersOfRegistered(agents: seq<NamespacedName>, agent: NamespacedName, n: nat)
    ensures Others(Others(agents, agent) + Copies(agent, n), agent) == Others(agents, agent)
  {
    OthersConcat(Others(agents, agent), Copies(agent, n), agent);
    OthersTwice(agents, agent);
    OthersOfCopies(agent, n);
    assert Others(agents, agent) + [] == Others(agents, agent);
  }

  /** Registering the same triggers again changes nothing. */
  lemma RegisteringAgainChangesNothing(
    m: AgentMap, agent: NamespacedName, triggers: seq<TriggerSpec>, m': AgentMap, m'': AgentMap)
    requires Registered(m, agent, triggers, m') && Registered(m', agent, triggers, m'')
    ensures m'' == m'
  {
    forall s ensures Lookup(m'', s) == Lookup(m', s) {
      OthersOfRegistered(Lookup(m, s), agent, Matching(triggers, s));
    }
    SameLookups(m'', m');
  }
}
