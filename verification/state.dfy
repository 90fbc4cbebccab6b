/** The agent state store: a quota-limited key-value map with time-to-live. */
module StateStore {
  import opened Types

  type Byte = b: nat | b < 256
  type Bytes = seq<Byte>

  const DEFAULT_MAX_KEYS: int := 100
  const DEFAULT_MAX_VALUE_SIZE: int := 4096
  const MAX_TOTAL_SIZE: int := 65536
  const SECOND: int := 1_000_000_000

  datatype Entry = Entry(value: Bytes, updatedAt: int, updatedBy: string, ttl: string)

  type Entries = map<Bytes, Entry>

  datatype AgentState = AgentState(maxKeys: int, maxValueSize: int, entries: Entries, totalSize: int, lastUpdated: int)
  {
    function MaxKeys(): int { if maxKeys == 0 then DEFAULT_MAX_KEYS else maxKeys }
    function MaxValueSize(): int { if maxValueSize == 0 then DEFAULT_MAX_VALUE_SIZE else maxValueSize }
  }

  /** One call's surroundings: the clock, and whether the API server answers. */
  datatype Weather = Weather(now: int, fetchFails: bool, writeFails: bool)

  /** The API stores times in whole seconds. */
  function Stored(t: int): int { t - t % SECOND }

  /** time.ParseDuration, arbitrary. */
  type Durations = string -> Option<int>

  predicate Expired(e: Entry, parse: Durations, now: int) {
    e.ttl != "" && parse(e.ttl).Some? && now - e.updatedAt > parse(e.ttl).value
  }

  // ---------------------------------------------------------------- sizes

  function EntrySize(m: Entries, k: Bytes): nat
    requires k in m
  {
    |k| + |m[k].value|
  }

  ghost function Size(m: Entries): nat
    decreases |m|
  {
    if m == map[] then 0
    else
      var k :| k in m;
      assert |m - {k}| < |m| by { RemoveShrinks(m, k); }
      EntrySize(m, k) + Size(m - {k})
  }

  lemma RemoveShrinks(m: Entries, k: Bytes)
    requires k in m
    ensures |m - {k}| == |m| - 1
  {
    assert (m - {k}).Keys == m.Keys - {k};
    assert |m - {k}| == |(m - {k}).Keys|;
  }

  lemma {:induction false} SizeWithout(m: Entries, k: Bytes)
    requires k in m
    ensures Size(m) == EntrySize(m, k) + Size(m - {k})
    decreases |m|
  {
    var j :| j in m && Size(m) == EntrySize(m, j) + Size(m - {j});
    if j != k {
      RemoveShrinks(m, j);
      RemoveShrinks(m, k);
      SizeWithout(m - {j}, k);
      SizeWithout(m - {k}, j);
      var one, other := (m - {j}) - {k}, (m - {k}) - {j};
      assert one == other;
      assert Size(m - {j}) == EntrySize(m, k) + Size(one);
      assert Size(m - {k}) == EntrySize(m, j) + Size(other);
    }
  }

  /** Keys and values are counted. */
  lemma SizeCounts(m: Entries, k: Bytes)
    ensures Size(map[]) == 0
    ensures k in m ==> Size(m) == |k| + |m[k].value| + Size(m - {k})
  {
    if k in m { SizeWithout(m, k); }
  }

  /** The summing loop. */
  method TotalSize(m: Entries) returns (total: nat)
    ensures total == Size(m)
  {
    total := 0;
    var rest := m;
    while rest != map[]
      invariant total + Size(rest) == Size(m)
      decreases |rest|
    {
      var k :| k in rest;
      SizeWithout(rest, k);
      RemoveShrinks(rest, k);
      total := total + |k| + |rest[k].value|;
      rest := rest - {k};
    }
  }

  // ---------------------------------------------------------------- operations

  datatype Op =
    | Get(key: Bytes)
    | Set(key: Bytes, value: Bytes, runName: string, ttl: string)
    | Delete(key: Bytes)
    | ListKeys

  function NewEntry(op: Op, now: int): Entry
    requires op.Set?
  {
    Entry(op.value, Stored(now), op.runName, op.ttl)
  }

  /** The writes that go through. */
  ghost predicate Accepts(s: AgentState, op: Op, w: Weather)
    requires op.Set? || op.Delete?
  {
    && !w.fetchFails
    && (op.Set? ==>
          && |op.value| <= s.MaxValueSize()
          && (op.key in s.entries || |s.entries| < s.MaxKeys())
          && Size(s.entries[op.key := NewEntry(op, w.now)]) <= MAX_TOTAL_SIZE)
    && (!w.writeFails || (op.Delete? && s.entries == map[]))
  }

  function Unexpired(m: Entries, parse: Durations, now: int): Entries {
    map k | k in m && !Expired(m[k], parse, now) :: m[k]
  }

  /** The stored state after an operation. */
  ghost function After(s: AgentState, op: Op, parse: Durations, w: Weather): AgentState {
    match op
    case Get(key) =>
      if !w.fetchFails && !w.writeFails && key in s.entries && Expired(s.entries[key], parse, w.now)
      then s.(entries := s.entries - {key}) else s
    case ListKeys =>
      if !w.fetchFails && !w.writeFails then s.(entries := Unexpired(s.entries, parse, w.now)) else s
    case Set(key, _, _, _) =>
      if Accepts(s, op, w) then
        var entries := s.entries[key := NewEntry(op, w.now)];
        s.(entries := entries, totalSize := Size(entries), lastUpdated := Stored(w.now))
      else s
    case Delete(key) =>
      if Accepts(s, op, w) && s.entries != map[] then
        var entries := s.entries - {key};
        s.(entries := entries, totalSize := Size(entries), lastUpdated := Stored(w.now))
      else s
  }

  class Manager {
    const parse: Durations
    var stored: AgentState

    constructor (parse: Durations, maxKeys: int, maxValueSize: int)
      ensures this.parse == parse && stored == AgentState(maxKeys, maxValueSize, map[], 0, 0)
    {
      this.parse := parse;
      stored := AgentState(maxKeys, maxValueSize, map[], 0, 0);
    }

    method DoGet(key: Bytes, w: Weather) returns (r: Result<Option<Bytes>>)
      modifies this
      ensures stored == After(old(stored), Get(key), parse, w)
      ensures r == if w.fetchFails then Err else Ok(Answer(old(stored).entries, key, parse, w.now))
    {
      if w.fetchFails {
        return Err;
      }
      var state := stored;
      if key !in state.entries {
        return Ok(None);
      }
      var entry := state.entries[key];
      if Expired(entry, parse, w.now) {
        state := state.(entries := state.entries - {key});
        if !w.writeFails {
          stored := state;
        }
        return Ok(None);
      }
      return Ok(Some(entry.value));
    }

    method DoSet(key: Bytes, value: Bytes, runName: string, ttl: string, w: Weather) returns (r: Result<()>)
      modifies this
      ensures stored == After(old(stored), Set(key, value, runName, ttl), parse, w)
      ensures r.Ok? <==> Accepts(old(stored), Set(key, value, runName, ttl), w)
    {
      if w.fetchFails {
        return Err;
      }
      var state := stored;
      if |value| > state.MaxValueSize() {
        return Err;
      }
      if key !in state.entries && |state.entries| >= state.MaxKeys() {
        return Err;
      }
      state := state.(entries := state.entries[key := Entry(value, Stored(w.now), runName, ttl)]);
      var totalSize := TotalSize(state.entries);
      if totalSize > MAX_TOTAL_SIZE {
        return Err;
      }
      state := state.(totalSize := totalSize, lastUpdated := Stored(w.now));
      if w.writeFails {
        return Err;
      }
      stored := state;
      return Ok(());
    }

    method DoDelete(key: Bytes, w: Weather) returns (r: Result<()>)
      modifies this
      ensures stored == After(old(stored), Delete(key), parse, w)
      ensures r.Ok? <==> Accepts(old(stored), Delete(key), w)
    {
      if w.fetchFails {
        return Err;
      }
      var state := stored;
      if state.entries == map[] {
        return Ok(());
      }
      state := state.(entries := state.entries - {key});
      var totalSize := TotalSize(state.entries);
      state := state.(totalSize := totalSize, lastUpdated := Stored(w.now));
      if w.writeFails {
        return Err;
      }
      stored := state;
      return Ok(());
    }

    /** Deletes expired entries while iterating over the map. */
    method DoListKeys(w: Weather) returns (r: Result<Entries>)
      modifies this
      ensures stored == After(old(stored), ListKeys, parse, w)
      ensures r == if w.fetchFails then Err else Ok(Unexpired(old(stored).entries, parse, w.now))
    {
      if w.fetchFails {
        return Err;
      }
      var entries := stored.entries;
      var keys := entries.Keys;
      while keys != {}
        invariant keys <= entries.Keys <= stored.entries.Keys
        invariant forall k :: k in entries ==> entries[k] == stored.entries[k]
        invariant forall k :: k in stored.entries && k !in keys ==>
                    (k in entries <==> !Expired(stored.entries[k], parse, w.now))
      {
        var key :| key in keys;
        keys := keys - {key};
        if Expired(entries[key], parse, w.now) {
          entries := entries - {key};
        }
      }
      assert entries == Unexpired(stored.entries, parse, w.now);
      if entries != stored.entries && !w.writeFails {
        stored := stored.(entries := entries);
      }
      return Ok(entries);
    }
  }

  function Answer(m: Entries, key: Bytes, parse: Durations, now: int): Option<Bytes> {
    if key in m && !Expired(m[key], parse, now) then Some(m[key].value) else None
  }

  // ---------------------------------------------------------------- quotas

  /** What every reachable state satisfies. */
  ghost predicate WithinQuota(s: AgentState) {
    && (s.entries != map[] ==> |s.entries| <= s.MaxKeys())
    && (forall k :: k in s.entries ==> |s.entries[k].value| <= s.MaxValueSize())
    && Size(s.entries) <= s.totalSize <= MAX_TOTAL_SIZE
  }

  lemma {:induction false} SubmapSize(small: Entries, big: Entries)
    requires small.Keys <= big.Keys && forall k :: k in small ==> small[k] == big[k]
    ensures Size(small) <= Size(big) && |small| <= |big|
    decreases |big|
  {
    if k :| k in big {
      RemoveShrinks(big, k);
      SizeWithout(big, k);
      if k in small {
        RemoveShrinks(small, k);
        SizeWithout(small, k);
        SubmapSize(small - {k}, big - {k});
      } else {
        SubmapSize(small, big - {k});
      }
    } else {
      assert small == big;
    }
  }

  lemma StepKeepsQuota(s: AgentState, op: Op, parse: Durations, w: Weather)
    requires WithinQuota(s)
    ensures WithinQuota(After(s, op, parse, w))
    ensures After(s, op, parse, w).maxKeys == s.maxKeys && After(s, op, parse, w).maxValueSize == s.maxValueSize
  {
    var s' := After(s, op, parse, w);
    if op.Set? && Accepts(s, op, w) {
      var m := s.entries[op.key := NewEntry(op, w.now)];
      assert m.Keys == s.entries.Keys + {op.key};
      assert |m| == |m.Keys| && |s.entries| == |s.entries.Keys|;
    } else {
      SubmapSize(s'.entries, s.entries);
    }
  }

  /** An operation and its surroundings. */
  datatype Call = Call(op: Op, weather: Weather)

  ghost predicate Run(states: seq<AgentState>, calls: seq<Call>, parse: Durations) {
    && |states| == |calls| + 1
    && states[0].entries == map[] && states[0].totalSize == 0
    && (forall i, j :: 0 <= i <= j < |calls| ==> calls[i].weather.now <= calls[j].weather.now)
    && forall i :: 0 <= i < |calls| ==> states[i + 1] == After(states[i], calls[i].op, parse, calls[i].weather)
  }

  /** Over any sequence of operations the quotas hold and the recorded size is never too small. */
  lemma {:induction false} RunKeepsQuota(states: seq<AgentState>, calls: seq<Call>, parse: Durations, i: nat)
    requires Run(states, calls, parse) && i < |states|
    ensures WithinQuota(states[i])
    ensures states[i].maxKeys == states[0].maxKeys && states[i].maxValueSize == states[0].maxValueSize
    decreases i
  {
    if i > 0 {
      RunKeepsQuota(states, calls, parse, i - 1);
      StepKeepsQuota(states[i - 1], calls[i - 1].op, parse, calls[i - 1].weather);
    }
  }

  // ---------------------------------------------------------------- the recorded size

  /** The expired entries that a read removes from the store. */
  function Dropped(s: AgentState, op: Op, parse: Durations, w: Weather): Entries {
    if w.fetchFails || w.writeFails then map[]
    else match op
      case Get(key) => map k | k in s.entries && k == key && Expired(s.entries[k], parse, w.now) :: s.entries[k]
      case ListKeys => map k | k in s.entries && Expired(s.entries[k], parse, w.now) :: s.entries[k]
      case _ => map[]
  }

  /** The operation is a write that reaches the store. */
  ghost predicate Writes(s: AgentState, op: Op, w: Weather) {
    (op.Set? || (op.Delete? && s.entries != map[])) && Accepts(s, op, w)
  }

  /** What expiry has removed since the last write. */
  ghost function Drift(states: seq<AgentState>, calls: seq<Call>, parse: Durations, n: nat): nat
    requires n <= |calls| < |states|
  {
    if n == 0 || Writes(states[n - 1], calls[n - 1].op, calls[n - 1].weather) then 0
    else Drift(states, calls, parse, n - 1) + Size(Dropped(states[n - 1], calls[n - 1].op, parse, calls[n - 1].weather))
  }

  /** The number of operations up to and including the last write. */
  ghost function LastWrite(states: seq<AgentState>, calls: seq<Call>, n: nat): (k: nat)
    requires n <= |calls| < |states|
    ensures k <= n
  {
    if n == 0 || Writes(states[n - 1], calls[n - 1].op, calls[n - 1].weather) then n
    else LastWrite(states, calls, n - 1)
  }

  /** Operation `i` removes only entries with an empty key and an empty value. */
  ghost predicate DropsNothing(states: seq<AgentState>, calls: seq<Call>, parse: Durations, i: nat)
    requires i < |calls| < |states|
  {
    var gone := Dropped(states[i], calls[i].op, parse, calls[i].weather);
    forall k :: k in gone ==> EntrySize(gone, k) == 0
  }

  lemma {:induction false} SizeSplits(m: Entries, gone: Entries)
    requires gone.Keys <= m.Keys && forall k :: k in gone ==> gone[k] == m[k]
    ensures Size(m) == Size(m - gone.Keys) + Size(gone)
    decreases |gone|
  {
    if gone == map[] {
      assert m - gone.Keys == m;
    } else {
      var k :| k in gone;
      var m', gone' := m - {k}, gone - {k};
      RemoveShrinks(gone, k);
      SizeWithout(m, k);
      SizeWithout(gone, k);
      assert gone'.Keys == gone.Keys - {k};
      SizeSplits(m', gone');
      assert m' - gone'.Keys == m - gone.Keys;
    }
  }

  lemma {:induction false} SizeZero(m: Entries)
    ensures Size(m) == 0 <==> forall k :: k in m ==> EntrySize(m, k) == 0
    decreases |m|
  {
    if m != map[] {
      var k :| k in m;
      RemoveShrinks(m, k);
      SizeWithout(m, k);
      SizeZero(m - {k});
      forall j | j in m && j != k ensures EntrySize(m, j) == EntrySize(m - {k}, j) {
      }
    }
  }

  lemma StepDrifts(s: AgentState, op: Op, parse: Durations, w: Weather, s': AgentState, drift: nat)
    requires s' == After(s, op, parse, w) && s.totalSize == Size(s.entries) + drift
    ensures s'.totalSize == Size(s'.entries) + if Writes(s, op, w) then 0 else drift + Size(Dropped(s, op, parse, w))
  {
    if !Writes(s, op, w) {
      var gone := Dropped(s, op, parse, w);
      SizeSplits(s.entries, gone);
      assert s'.entries == s.entries - gone.Keys;
    }
  }

  lemma {:induction false} DriftIsZero(states: seq<AgentState>, calls: seq<Call>, parse: Durations, n: nat)
    requires n <= |calls| < |states|
    ensures Drift(states, calls, parse, n) == 0 <==>
            forall i :: LastWrite(states, calls, n) <= i < n ==> DropsNothing(states, calls, parse, i)
  {
    if n > 0 && !Writes(states[n - 1], calls[n - 1].op, calls[n - 1].weather) {
      DriftIsZero(states, calls, parse, n - 1);
      SizeZero(Dropped(states[n - 1], calls[n - 1].op, parse, calls[n - 1].weather));
      assert DropsNothing(states, calls, parse, n - 1) <==>
             Size(Dropped(states[n - 1], calls[n - 1].op, parse, calls[n - 1].weather)) == 0;
    }
  }

  lemma RunStep(states: seq<AgentState>, calls: seq<Call>, parse: Durations, i: nat)
    requires Run(states, calls, parse) && i < |calls|
    ensures states[i + 1] == After(states[i], calls[i].op, parse, calls[i].weather)
  {
  }

  lemma {:induction false} SizeIsOffByDrift(states: seq<AgentState>, calls: seq<Call>, parse: Durations, n: nat)
    requires Run(states, calls, parse) && n <= |calls|
    ensures states[n].totalSize == Size(states[n].entries) + Drift(states, calls, parse, n)
    decreases n
  {
    if n > 0 {
      SizeIsOffByDrift(states, calls, parse, n - 1);
      var i := n - 1;
      RunStep(states, calls, parse, i);
      StepDrifts(states[i], calls[i].op, parse, calls[i].weather, states[i + 1], Drift(states, calls, parse, i));
    }
  }

  /**
   * Over every sequence of operations the recorded size is the actual size plus what expiry has
   * removed since the last write: exact if and only if no read since then dropped a non-empty entry.
   */
  lemma TotalSizeExactIff(states: seq<AgentState>, calls: seq<Call>, parse: Durations, n: nat)
    requires Run(states, calls, parse) && n <= |calls|
    ensures states[n].totalSize == Size(states[n].entries) + Drift(states, calls, parse, n)
    ensures states[n].totalSize == Size(states[n].entries) <==>
            forall i :: LastWrite(states, calls, n) <= i < n ==> DropsNothing(states, calls, parse, i)
  {
    SizeIsOffByDrift(states, calls, parse, n);
    DriftIsZero(states, calls, parse, n);
  }

  /** A write and a read after its time-to-live: nothing is stored and two bytes are recorded. */
  lemma StaleSizeReached() returns (states: seq<AgentState>, calls: seq<Call>, parse: Durations)
    ensures Run(states, calls, parse) && |calls| == 2
    ensures states[2].entries == map[] && states[2].totalSize == 2 && Size(states[2].entries) == 0
  {
    parse := _ => Some(0);
    var write, read := Set([97], [98], "run", "0s"), Get([97]);
    calls := [Call(write, Weather(0, false, false)), Call(read, Weather(1, false, false))];
    var s0 := AgentState(0, 0, map[], 0, 0);
    var entries := s0.entries[[97] := NewEntry(write, 0)];
    SizeWithout(entries, [97]);
    assert entries - {[97]} == map[];
    var s1 := After(s0, write, parse, calls[0].weather);
    states := [s0, s1, After(s1, read, parse, calls[1].weather)];
  }

  // ---------------------------------------------------------------- refinement

  /** What an operation adds to a log of the last successful write per key. */
  ghost function Logged(log: Entries, s: AgentState, c: Call): Entries {
    match c.op
    case Set(key, _, _, _) => if Accepts(s, c.op, c.weather) then log[key := NewEntry(c.op, c.weather.now)] else log
    case Delete(key) => if Accepts(s, c.op, c.weather) then log - {key} else log
    case _ => log
  }

  ghost function LastWrites(states: seq<AgentState>, calls: seq<Call>, n: nat): Entries
    requires n <= |calls| < |states|
    decreases n
  {
    if n == 0 then map[] else Logged(LastWrites(states, calls, n - 1), states[n - 1], calls[n - 1])
  }

  /** The store holds the log's entries, except some that have already expired. */
  ghost predicate Refines(m: Entries, log: Entries, parse: Durations, now: int) {
    && (forall k :: k in m ==> k in log && m[k] == log[k])
    && (forall k :: k in log && k !in m ==> Expired(log[k], parse, now))
  }

  lemma ReadsKeepRefining(s: AgentState, log: Entries, c: Call, parse: Durations, t: int)
    requires Refines(s.entries, log, parse, t) && t <= c.weather.now && (c.op.Get? || c.op.ListKeys?)
    ensures Refines(After(s, c.op, parse, c.weather).entries, Logged(log, s, c), parse, c.weather.now)
  {
  }

  lemma WritesKeepRefining(s: AgentState, log: Entries, c: Call, parse: Durations, t: int)
    requires Refines(s.entries, log, parse, t) && t <= c.weather.now && (c.op.Set? || c.op.Delete?)
    ensures Refines(After(s, c.op, parse, c.weather).entries, Logged(log, s, c), parse, c.weather.now)
  {
  }

  lemma {:induction false} StoreRefinesLog(states: seq<AgentState>, calls: seq<Call>, parse: Durations, n: nat)
    requires Run(states, calls, parse) && n <= |calls|
    ensures n > 0 ==> Refines(states[n].entries, LastWrites(states, calls, n), parse, calls[n - 1].weather.now)
    ensures n == 0 ==> states[n].entries == LastWrites(states, calls, n)
    decreases n
  {
    if n > 0 {
      var i := n - 1;
      StoreRefinesLog(states, calls, parse, i);
      RunStep(states, calls, parse, i);
      var t := if i > 0 then calls[i - 1].weather.now else calls[i].weather.now;
      assert t <= calls[i].weather.now;
      if calls[i].op.Set? || calls[i].op.Delete? {
        WritesKeepRefining(states[i], LastWrites(states, calls, i), calls[i], parse, t);
      } else {
        ReadsKeepRefining(states[i], LastWrites(states, calls, i), calls[i], parse, t);
      }
    }
  }

  /**
   * Reads answer exactly what a log of the last successful write per key, with its time-to-live,
   * would answer, whichever writes failed and whenever expired entries were cleaned.
   */
  lemma ReadsAnswerFromLog(states: seq<AgentState>, calls: seq<Call>, parse: Durations, i: nat, key: Bytes)
    requires Run(states, calls, parse) && i < |calls|
    ensures var log := LastWrites(states, calls, i);
            && Answer(states[i].entries, key, parse, calls[i].weather.now) ==
                 Answer(log, key, parse, calls[i].weather.now)
            && Unexpired(states[i].entries, parse, calls[i].weather.now) ==
                 Unexpired(log, parse, calls[i].weather.now)
  {
    StoreRefinesLog(states, calls, parse, i);
    if i > 0 {
      assert calls[i - 1].weather.now <= calls[i].weather.now;
    }
  }

  // ---------------------------------------------------------------- what is written is read

  /** The operation stores a value under the key, or removes it. */
  ghost predicate Affects(s: AgentState, c: Call, key: Bytes) {
    (c.op.Set? || c.op.Delete?) && c.op.key == key && Accepts(s, c.op, c.weather)
  }

  lemma {:induction false} WriteIsLogged(states: seq<AgentState>, calls: seq<Call>, key: Bytes, j: nat, n: nat)
    requires j < n <= |calls| < |states| && Affects(states[j], calls[j], key)
    requires forall k :: j < k < n ==> !Affects(states[k], calls[k], key)
    ensures var log, op := LastWrites(states, calls, n), calls[j].op;
            if op.Set? then key in log && log[key] == NewEntry(op, calls[j].weather.now) else key !in log
    decreases n
  {
    if n > j + 1 {
      WriteIsLogged(states, calls, key, j, n - 1);
      assert !Affects(states[n - 1], calls[n - 1], key);
    }
  }

  /**
   * A read answers the last value that was stored under the key, unless it was removed since or its
   * time-to-live, counted from the second in which it was stored, is over.
   */
  lemma ReadsLastWrite(states: seq<AgentState>, calls: seq<Call>, parse: Durations, key: Bytes, j: nat, i: nat)
    requires Run(states, calls, parse) && j < i < |calls| && Affects(states[j], calls[j], key)
    requires forall k :: j < k < i ==> !Affects(states[k], calls[k], key)
    ensures var op, at, now := calls[j].op, calls[j].weather.now, calls[i].weather.now;
            Answer(states[i].entries, key, parse, now) ==
            if op.Delete? then None
            else if op.ttl != "" && parse(op.ttl).Some? && now - (at - at % 1_000_000_000) > parse(op.ttl).value then None
            else Some(op.value)
  {
    WriteIsLogged(states, calls, key, j, i);
    ReadsAnswerFromLog(states, calls, parse, i, key);
  }

  lemma {:induction false} NothingIsLogged(states: seq<AgentState>, calls: seq<Call>, key: Bytes, n: nat)
    requires n <= |calls| < |states| && forall k :: 0 <= k < n ==> !Affects(states[k], calls[k], key)
    ensures key !in LastWrites(states, calls, n)
    decreases n
  {
    if n > 0 {
      NothingIsLogged(states, calls, key, n - 1);
      assert !Affects(states[n - 1], calls[n - 1], key);
    }
  }

  /** A key under which nothing was stored has no value. */
  lemma NothingToRead(states: seq<AgentState>, calls: seq<Call>, parse: Durations, key: Bytes, i: nat)
    requires Run(states, calls, parse) && i < |calls| && forall k :: 0 <= k < i ==> !Affects(states[k], calls[k], key)
    ensures Answer(states[i].entries, key, parse, calls[i].weather.now) == None
  {
    NothingIsLogged(states, calls, key, i);
    ReadsAnswerFromLog(states, calls, parse, i, key);
  }

  /** The listing shows exactly what reads would answer. */
  lemma ListingIsReads(m: Entries, parse: Durations, now: int, key: Bytes)
    ensures Answer(m, key, parse, now) ==
            if key in Unexpired(m, parse, now) then Some(Unexpired(m, parse, now)[key].value) else None
  {
  }

  /** A write to a store within its quota of keys is refused exactly when it fails or a quota would be exceeded. */
  lemma SetAcceptedIff(s: AgentState, op: Op, w: Weather)
    requires op.Set? && (op.key in s.entries ==> |s.entries| <= if s.maxKeys == 0 then 100 else s.maxKeys)
    ensures var after := s.entries[op.key := Entry(op.value, w.now - w.now % 1_000_000_000, op.runName, op.ttl)];
            Accepts(s, op, w) <==>
            && !w.fetchFails && !w.writeFails
            && |op.value| <= (if s.maxValueSize == 0 then 4096 else s.maxValueSize)
            && |after| <= (if s.maxKeys == 0 then 100 else s.maxKeys)
            && Size(after) <= 65536
  {
    CountAfter(s.entries, op.key, NewEntry(op, w.now));
  }

  /** A delete fails only if the store cannot be reached; with nothing stored, nothing is written. */
  lemma DeleteAcceptedIff(s: AgentState, op: Op, w: Weather)
    requires op.Delete?
    ensures Accepts(s, op, w) <==> !w.fetchFails && (s.entries == map[] || !w.writeFails)
  {
  }

  lemma CountAfter(m: Entries, key: Bytes, e: Entry)
    ensures |m[key := e]| == |m| + if key in m then 0 else 1
  {
    assert m[key := e].Keys == m.Keys + {key};
    assert |m[key := e]| == |m[key := e].Keys| && |m| == |m.Keys|;
    if key in m { assert m.Keys + {key} == m.Keys; }
  }
}
