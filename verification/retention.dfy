/** The retention scan: old finished runs are deleted, the newest of each agent are kept. */
module Retention {
  import opened Types
  import Runner
  import Targets

  datatype Config = Config(ttl: int, maxDeleteBatch: nat, preserveMinPerAgent: int)

  datatype LegatorRun = LegatorRun(
    namespace: string,
    name: string,
    agentRef: string,
    phase: RunPhase,
    created: int,
    completed: Option<int>)

  datatype ScanResult = ScanResult(scanned: nat, eligible: nat, deleted: nat, errors: nat)

  predicate IsTerminal(p: RunPhase) { p in {Succeeded, RunFailed, Escalated, RunBlocked} }

  function AgentKey(r: LegatorRun): string { r.namespace + "/" + r.agentRef }

  function FinishedAt(r: LegatorRun): int { if r.completed.Some? then r.completed.value else r.created }

  /** Finished, and finished before the cutoff. */
  predicate Outdated(r: LegatorRun, cutoff: int) { IsTerminal(r.phase) && FinishedAt(r) < cutoff }

  // ---------------------------------------------------------------- grouping and sorting

  function OfAgent(runs: seq<LegatorRun>, key: string): (group: seq<LegatorRun>)
    ensures forall r :: r in group <==> r in runs && AgentKey(r) == key
  {
    if runs == [] then []
    else
      OfAgent(runs[..|runs| - 1], key) +
      if AgentKey(runs[|runs| - 1]) == key then [runs[|runs| - 1]] else []
  }

  predicate NoDup(runs: seq<LegatorRun>) { forall i, j :: 0 <= i < j < |runs| ==> runs[i] != runs[j] }

  predicate NewestFirst(runs: seq<LegatorRun>) {
    forall i, j :: 0 <= i < j < |runs| ==> runs[i].created >= runs[j].created
  }

  type Groups = map<string, seq<LegatorRun>>

  method GroupByAgent(runs: seq<LegatorRun>) returns (byAgent: Groups)
    ensures forall key :: key in byAgent <==> exists r :: r in runs && AgentKey(r) == key
    ensures forall key :: key in byAgent ==> byAgent[key] == OfAgent(runs, key)
  {
    byAgent := map[];
    for i := 0 to |runs|
      invariant forall key :: key in byAgent ==> byAgent[key] == OfAgent(runs[..i], key)
      invariant forall key :: key !in byAgent ==> OfAgent(runs[..i], key) == []
      invariant forall key :: key in byAgent ==> byAgent[key] != []
    {
      assert runs[..i + 1][..i] == runs[..i];
      var key := AgentKey(runs[i]);
      byAgent := byAgent[key := (if key in byAgent then byAgent[key] else []) + [runs[i]]];
    }
    assert runs[..|runs|] == runs;
    forall key ensures key in byAgent <==> exists r :: r in runs && AgentKey(r) == key {
      if key in byAgent {
        var r := byAgent[key][0];
        assert r in OfAgent(runs, key);
      }
      if r :| r in runs && AgentKey(r) == key {
        assert r in OfAgent(runs, key);
      }
    }
  }

  /** sort.Slice by creation time; runs created at the same time may end up in any order. */
  method SortNewestFirst(runs: seq<LegatorRun>) returns (sorted: seq<LegatorRun>)
    ensures multiset(sorted) == multiset(runs) && NewestFirst(sorted)
  {
    sorted := [];
    for i := 0 to |runs|
      invariant multiset(sorted) == multiset(runs[..i]) && NewestFirst(sorted)
    {
      sorted := InsertByAge(sorted, runs[i]);
      assert runs[..i + 1] == runs[..i] + [runs[i]];
    }
    assert runs[..|runs|] == runs;
  }

  method InsertByAge(sorted: seq<LegatorRun>, run: LegatorRun) returns (longer: seq<LegatorRun>)
    requires NewestFirst(sorted)
    ensures multiset(longer) == multiset(sorted) + multiset{run} && NewestFirst(longer)
  {
    var k := 0;
    while k < |sorted| && sorted[k].created >= run.created
      invariant 0 <= k <= |sorted|
      invariant forall j :: 0 <= j < k ==> sorted[j].created >= run.created
    {
      k := k + 1;
    }
    longer := sorted[..k] + [run] + sorted[k..];
    InsertIsPermutation(sorted, k, run);
    InsertKeepsOrder(sorted, k, run);
  }

  lemma InsertIsPermutation(sorted: seq<LegatorRun>, k: nat, run: LegatorRun)
    requires k <= |sorted|
    ensures multiset(sorted[..k] + [run] + sorted[k..]) == multiset(sorted) + multiset{run}
  {
    assert sorted == sorted[..k] + sorted[k..];
  }

  lemma InsertKeepsOrder(sorted: seq<LegatorRun>, k: nat, run: LegatorRun)
    requires NewestFirst(sorted) && k <= |sorted|
    requires forall j :: 0 <= j < k ==> sorted[j].created >= run.created
    requires k < |sorted| ==> sorted[k].created < run.created
    ensures NewestFirst(sorted[..k] + [run] + sorted[k..])
  {
    assert k < |sorted| ==> forall j :: k <= j < |sorted| ==> sorted[j].created <= sorted[k].created;
  }

  /** `groups` holds each agent's runs, newest first: any result of grouping and sorting. */
  ghost predicate Grouped(runs: seq<LegatorRun>, groups: Groups) {
    && (forall key :: key in groups <==> exists r :: r in runs && AgentKey(r) == key)
    && (forall key :: key in groups ==>
          NewestFirst(groups[key]) && multiset(groups[key]) == multiset(OfAgent(runs, key)))
  }

  // ---------------------------------------------------------------- eligibility

  predicate EligibleAt(c: Config, cutoff: int, group: seq<LegatorRun>, i: nat)
    requires i < |group|
  {
    Outdated(group[i], cutoff) && i >= c.preserveMinPerAgent
  }

  /** The eligible runs of one agent, in order. */
  function EligibleOf(c: Config, cutoff: int, group: seq<LegatorRun>, n: nat): (out: seq<LegatorRun>)
    requires n <= |group|
    ensures forall r :: r in out <==> exists i :: 0 <= i < n && group[i] == r && EligibleAt(c, cutoff, group, i)
  {
    if n == 0 then []
    else
      EligibleOf(c, cutoff, group, n - 1) + if EligibleAt(c, cutoff, group, n - 1) then [group[n - 1]] else []
  }

  ghost predicate Eligible(c: Config, cutoff: int, groups: Groups, r: LegatorRun) {
    var key := AgentKey(r);
    key in groups && exists i :: 0 <= i < |groups[key]| && groups[key][i] == r && EligibleAt(c, cutoff, groups[key], i)
  }

  lemma {:induction false} EligibleOfNoDup(c: Config, cutoff: int, group: seq<LegatorRun>, n: nat)
    requires n <= |group| && NoDup(group)
    ensures NoDup(EligibleOf(c, cutoff, group, n))
    decreases n
  {
    if n > 0 {
      EligibleOfNoDup(c, cutoff, group, n - 1);
      NoDupConcat(EligibleOf(c, cutoff, group, n - 1), [group[n - 1]]);
    }
  }

  method EligibleRuns(c: Config, cutoff: int, group: seq<LegatorRun>) returns (out: seq<LegatorRun>)
    ensures out == EligibleOf(c, cutoff, group, |group|)
  {
    out := [];
    for i := 0 to |group|
      invariant out == EligibleOf(c, cutoff, group, i)
    {
      if !IsTerminal(group[i].phase) {
        continue;
      }
      if i < c.preserveMinPerAgent {
        continue;
      }
      var finished := if group[i].completed.Some? then group[i].completed.value else group[i].created;
      if finished < cutoff {
        out := out + [group[i]];
      }
    }
  }

  /** Each group holds runs of its own agent, each once. */
  ghost predicate Proper(groups: Groups) {
    forall key :: key in groups ==> NoDup(groups[key]) && forall r :: r in groups[key] ==> AgentKey(r) == key
  }

  lemma NoDupConcat(a: seq<LegatorRun>, b: seq<LegatorRun>)
    requires NoDup(a) && NoDup(b) && forall r :: r in a ==> r !in b
    ensures NoDup(a + b)
  {
    forall i, j | 0 <= i < j < |a + b| ensures (a + b)[i] != (a + b)[j] {
      if i < |a| <= j {
        assert a[i] in a;
      }
    }
  }

  /** The groups are visited in whatever order the map yields. */
  method CollectEligible(c: Config, cutoff: int, groups: Groups) returns (toDelete: seq<LegatorRun>)
    requires Proper(groups)
    ensures NoDup(toDelete)
    ensures forall r :: r in toDelete <==> Eligible(c, cutoff, groups, r)
  {
    toDelete := [];
    var keys := groups.Keys;
    while keys != {}
      invariant keys <= groups.Keys && NoDup(toDelete)
      invariant forall r :: r in toDelete <==> Eligible(c, cutoff, groups, r) && AgentKey(r) !in keys
    {
      var key :| key in keys;
      var some := EligibleRuns(c, cutoff, groups[key]);
      EligibleOfNoDup(c, cutoff, groups[key], |groups[key]|);
      assert forall r :: r in some <==> Eligible(c, cutoff, groups, r) && AgentKey(r) == key;
      NoDupConcat(toDelete, some);
      toDelete := toDelete + some;
      keys := keys - {key};
    }
  }

  method SortGroups(byAgent: Groups) returns (groups: Groups)
    ensures groups.Keys == byAgent.Keys
    ensures forall key :: key in groups ==> NewestFirst(groups[key]) && multiset(groups[key]) == multiset(byAgent[key])
  {
    groups := byAgent;
    var keys := byAgent.Keys;
    while keys != {}
      invariant keys <= groups.Keys == byAgent.Keys
      invariant forall key :: key in groups ==> multiset(groups[key]) == multiset(byAgent[key])
      invariant forall key :: key in groups && key !in keys ==> NewestFirst(groups[key])
    {
      var key :| key in keys;
      keys := keys - {key};
      var sorted := SortNewestFirst(groups[key]);
      groups := groups[key := sorted];
    }
  }

  // ---------------------------------------------------------------- distinctness

  lemma {:induction false} OfAgentNoDup(runs: seq<LegatorRun>, key: string)
    requires NoDup(runs)
    ensures NoDup(OfAgent(runs, key))
  {
    if runs != [] {
      OfAgentNoDup(runs[..|runs| - 1], key);
    }
  }

  lemma {:induction false} NoDupMultiplicity(s: seq<LegatorRun>, r: LegatorRun)
    requires NoDup(s)
    ensures multiset(s)[r] <= 1
    decreases |s|
  {
    if s != [] {
      var shorter, last := s[..|s| - 1], s[|s| - 1];
      assert s == shorter + [last];
      NoDupMultiplicity(shorter, r);
      assert last !in shorter;
      assert multiset(shorter)[last] == 0;
    }
  }

  lemma {:induction false} MultiplicityNoDup(s: seq<LegatorRun>)
    requires forall r :: multiset(s)[r] <= 1
    ensures NoDup(s)
    decreases |s|
  {
    if s != [] {
      var shorter, last := s[..|s| - 1], s[|s| - 1];
      assert s == shorter + [last];
      assert multiset(s)[last] == multiset(shorter)[last] + 1;
      assert last !in multiset(shorter);
      forall r ensures multiset(shorter)[r] <= 1 {
        assert multiset(s)[r] <= 1;
      }
      MultiplicityNoDup(shorter);
      NoDupConcat(shorter, [last]);
    }
  }

  lemma PermutationNoDup(a: seq<LegatorRun>, b: seq<LegatorRun>)
    requires multiset(a) == multiset(b) && NoDup(b)
    ensures NoDup(a) && forall r :: r in a <==> r in b
  {
    forall r ensures multiset(a)[r] <= 1 {
      NoDupMultiplicity(b, r);
    }
    MultiplicityNoDup(a);
    assert forall r :: r in a <==> r in multiset(a);
    assert forall r :: r in b <==> r in multiset(b);
  }

  lemma GroupedIsProper(runs: seq<LegatorRun>, groups: Groups)
    requires NoDup(runs) && Grouped(runs, groups)
    ensures Proper(groups)
    ensures forall key, r :: key in groups && r in groups[key] ==> r in runs
    ensures forall r :: r in runs ==> AgentKey(r) in groups && r in groups[AgentKey(r)]
  {
    forall key | key in groups
      ensures NoDup(groups[key]) && forall r :: r in groups[key] <==> r in runs && AgentKey(r) == key
    {
      OfAgentNoDup(runs, key);
      PermutationNoDup(groups[key], OfAgent(runs, key));
    }
  }

  // ---------------------------------------------------------------- the scan

  /** Delete calls may fail. */
  method DeleteAll(attempted: seq<LegatorRun>, deletes: LegatorRun -> bool) returns (deleted: seq<LegatorRun>, errors: nat)
    requires NoDup(attempted)
    ensures |deleted| + errors == |attempted| && NoDup(deleted)
    ensures forall r :: r in deleted <==> r in attempted && deletes(r)
  {
    deleted, errors := [], 0;
    for i := 0 to |attempted|
      invariant |deleted| + errors == i && NoDup(deleted)
      invariant forall r :: r in deleted <==> r in attempted[..i] && deletes(r)
    {
      if deletes(attempted[i]) {
        assert attempted[i] !in attempted[..i];
        NoDupConcat(deleted, [attempted[i]]);
        deleted := deleted + [attempted[i]];
      } else {
        errors := errors + 1;
      }
    }
    assert attempted[..|attempted|] == attempted;
  }

  function MinNat(a: nat, b: nat): nat { if a <= b then a else b }

  function MaxZero(x: int): nat { if x < 0 then 0 else x }

  /** `deleted` are eligible runs, at most a batch of them. */
  ghost predicate ScanOutcome(
    c: Config, cutoff: int, groups: Groups, toDelete: seq<LegatorRun>, deleted: seq<LegatorRun>, result: ScanResult)
  {
    && NoDup(toDelete) && (forall r :: r in toDelete <==> Eligible(c, cutoff, groups, r))
    && result.eligible == |toDelete|
    && NoDup(deleted) && (forall r :: r in deleted ==> r in toDelete)
    && result.deleted == |deleted|
    && result.deleted + result.errors == MinNat(result.eligible, c.maxDeleteBatch)
  }

  method GroupAndSort(runs: seq<LegatorRun>) returns (groups: Groups)
    requires NoDup(runs)
    ensures Grouped(runs, groups) && Proper(groups)
  {
    var byAgent := GroupByAgent(runs);
    groups := SortGroups(byAgent);
    GroupedIsProper(runs, groups);
  }

  method DeleteBatch(c: Config, toDelete: seq<LegatorRun>, deletes: LegatorRun -> bool)
    returns (deleted: seq<LegatorRun>, errors: nat)
    requires NoDup(toDelete)
    ensures NoDup(deleted) && (forall r :: r in deleted ==> r in toDelete && deletes(r))
    ensures |deleted| + errors == MinNat(|toDelete|, c.maxDeleteBatch)
    ensures (forall r :: deletes(r)) ==> errors == 0
  {
    var attempted := if |toDelete| > c.maxDeleteBatch then toDelete[..c.maxDeleteBatch] else toDelete;
    deleted, errors := DeleteAll(attempted, deletes);
    if forall r :: deletes(r) {
      SameElements(deleted, attempted);
    }
  }

  /** doScan; `listFails` is a failed list call. */
  method DoScan(runs: seq<LegatorRun>, c: Config, now: int, deletes: LegatorRun -> bool, listFails: bool)
    returns (result: ScanResult, toDelete: seq<LegatorRun>, deleted: seq<LegatorRun>, groups: Groups)
    requires NoDup(runs)
    ensures listFails ==> result == ScanResult(0, 0, 0, 1) && deleted == []
    ensures !listFails ==>
              && result.scanned == |runs| && Grouped(runs, groups)
              && ScanOutcome(c, now - c.ttl, groups, toDelete, deleted, result)
              && (forall r :: r in deleted ==> deletes(r))
              && ((forall r :: deletes(r)) ==> result.errors == 0)
  {
    if listFails {
      return ScanResult(0, 0, 0, 1), [], [], map[];
    }
    var cutoff := now - c.ttl;
    groups := GroupAndSort(runs);
    toDelete := CollectEligible(c, cutoff, groups);
    var errors;
    deleted, errors := DeleteBatch(c, toDelete, deletes);
    result := ScanResult(|runs|, |toDelete|, |deleted|, errors);
  }

  lemma {:induction false} SameElements(a: seq<LegatorRun>, b: seq<LegatorRun>)
    requires NoDup(a) && NoDup(b) && forall r :: r in a <==> r in b
    ensures |a| == |b|
  {
    SetSize(a);
    SetSize(b);
    assert Elements(a) == Elements(b);
  }

  function Elements(s: seq<LegatorRun>): set<LegatorRun> { set r | r in s }

  lemma {:induction false} SetSize(s: seq<LegatorRun>)
    requires NoDup(s)
    ensures |Elements(s)| == |s|
    decreases |s|
  {
    if s != [] {
      var shorter, last := s[..|s| - 1], s[|s| - 1];
      SetSize(shorter);
      assert Elements(s) == Elements(shorter) + {last};
    }
  }

  // ---------------------------------------------------------------- safety

  /** Only finished runs older than the cutoff are deleted. */
  lemma DeletesOnlyOutdated(
    c: Config, cutoff: int, runs: seq<LegatorRun>, groups: Groups,
    toDelete: seq<LegatorRun>, deleted: seq<LegatorRun>, result: ScanResult, r: LegatorRun)
    requires NoDup(runs) && Grouped(runs, groups) && ScanOutcome(c, cutoff, groups, toDelete, deleted, result)
    requires r in deleted
    ensures r in runs && LongOver(r, cutoff)
  {
    GroupedIsProper(runs, groups);
    assert Eligible(c, cutoff, groups, r);
  }

  /** The runs of an agent that a scan leaves. */
  function Left(runs: seq<LegatorRun>, deleted: seq<LegatorRun>, key: string): set<LegatorRun> {
    set r | r in runs && AgentKey(r) == key && r !in deleted
  }

  /** Whatever the map order and the failures, each agent keeps its newest runs, up to the minimum. */
  lemma KeepsMinimum(
    c: Config, cutoff: int, runs: seq<LegatorRun>, groups: Groups,
    toDelete: seq<LegatorRun>, deleted: seq<LegatorRun>, result: ScanResult, key: string)
    requires NoDup(runs) && Grouped(runs, groups) && ScanOutcome(c, cutoff, groups, toDelete, deleted, result)
    ensures |Left(runs, deleted, key)| >= MinNat(MaxZero(c.preserveMinPerAgent), |OfAgent(runs, key)|)
  {
    GroupedIsProper(runs, groups);
    if key in groups {
      var n := MinNat(MaxZero(c.preserveMinPerAgent), |groups[key]|);
      assert |multiset(groups[key])| == |multiset(OfAgent(runs, key))|;
      SetSize(groups[key][..n]);
      NewestAreLeft(c, cutoff, runs, groups, toDelete, deleted, result, key, n);
      SubsetSize(Elements(groups[key][..n]), Left(runs, deleted, key));
    } else {
      NoRunsOfAgent(runs, groups, key);
    }
  }

  lemma AgentKeyIs(r: LegatorRun, ns: string, agent: string)
    requires '/' !in r.namespace && '/' !in ns
    ensures AgentKey(r) == ns + "/" + agent <==> r.namespace == ns && r.agentRef == agent
  {
    Targets.CutAtSlash(r.namespace, r.agentRef);
    Targets.CutAtSlash(ns, agent);
  }

  /** The runs of one agent of one namespace. */
  function RunsOf(runs: seq<LegatorRun>, ns: string, agent: string): set<LegatorRun> {
    set r | r in runs && r.namespace == ns && r.agentRef == agent
  }

  /** So each agent of each namespace keeps at least the minimum, or all it has. */
  lemma EachAgentKeepsMinimum(
    c: Config, cutoff: int, runs: seq<LegatorRun>, groups: Groups,
    toDelete: seq<LegatorRun>, deleted: seq<LegatorRun>, result: ScanResult, ns: string, agent: string)
    requires NoDup(runs) && Grouped(runs, groups) && ScanOutcome(c, cutoff, groups, toDelete, deleted, result)
    requires '/' !in ns && forall r :: r in runs ==> '/' !in r.namespace
    ensures var all := RunsOf(runs, ns, agent);
            |all - Elements(deleted)| >= (if c.preserveMinPerAgent < 0 then 0
                                          else if c.preserveMinPerAgent < |all| then c.preserveMinPerAgent else |all|)
  {
    var key, all := ns + "/" + agent, RunsOf(runs, ns, agent);
    forall r | r in runs ensures AgentKey(r) == key <==> r.namespace == ns && r.agentRef == agent {
      AgentKeyIs(r, ns, agent);
    }
    KeepsMinimum(c, cutoff, runs, groups, toDelete, deleted, result, key);
    assert Left(runs, deleted, key) == all - Elements(deleted);
    OfAgentNoDup(runs, key);
    SetSize(OfAgent(runs, key));
    assert Elements(OfAgent(runs, key)) == all;
  }

  lemma NoRunsOfAgent(runs: seq<LegatorRun>, groups: Groups, key: string)
    requires Grouped(runs, groups)
    ensures key in groups || OfAgent(runs, key) == []
  {
    if OfAgent(runs, key) != [] {
      var r := OfAgent(runs, key)[0];
      assert r in OfAgent(runs, key);
      assert r in runs && AgentKey(r) == key;
    }
  }

  lemma NewestAreLeft(
    c: Config, cutoff: int, runs: seq<LegatorRun>, groups: Groups,
    toDelete: seq<LegatorRun>, deleted: seq<LegatorRun>, result: ScanResult, key: string, n: nat)
    requires NoDup(runs) && Grouped(runs, groups) && ScanOutcome(c, cutoff, groups, toDelete, deleted, result)
    requires key in groups && n <= |groups[key]| && (n == 0 || n <= c.preserveMinPerAgent)
    ensures Elements(groups[key][..n]) <= Left(runs, deleted, key)
  {
    GroupedIsProper(runs, groups);
    forall r | r in Elements(groups[key][..n]) ensures r in Left(runs, deleted, key) {
      var i :| 0 <= i < n && groups[key][i] == r;
      assert r in groups[key];
      NewestIsNotEligible(c, cutoff, groups, key, i);
    }
  }

  lemma NewestIsNotEligible(c: Config, cutoff: int, groups: Groups, key: string, i: nat)
    requires Proper(groups) && key in groups && i < |groups[key]| && i < c.preserveMinPerAgent
    ensures !Eligible(c, cutoff, groups, groups[key][i])
  {
    assert groups[key][i] in groups[key];
  }

  lemma SubsetSize(a: set<LegatorRun>, b: set<LegatorRun>)
    requires a <= b
    ensures |a| <= |b|
  {
    assert b == a + (b - a);
  }

  // ---------------------------------------------------------------- convergence

  /** No two runs of an agent were created at the same time. */
  ghost predicate DistinctTimes(runs: set<LegatorRun>) {
    forall r, q :: r in runs && q in runs && AgentKey(r) == AgentKey(q) && r.created == q.created ==> r == q
  }

  /** The runs of the same agent created after `r`. */
  function Newer(runs: set<LegatorRun>, r: LegatorRun): set<LegatorRun> {
    set q | q in runs && AgentKey(q) == AgentKey(r) && q.created > r.created
  }

  /** Eligibility without any ordering: finished before the cutoff, with enough newer runs. */
  function EligibleSet(c: Config, cutoff: int, runs: set<LegatorRun>): set<LegatorRun> {
    set r | r in runs && LongOver(r, cutoff) && |Newer(runs, r)| >= c.preserveMinPerAgent
  }

  /** The run ended, in whatever way, before the cutoff. */
  predicate LongOver(r: LegatorRun, cutoff: int) {
    && r.phase in {Succeeded, RunFailed, Escalated, RunBlocked}
    && (if r.completed.Some? then r.completed.value else r.created) < cutoff
  }

  lemma OutdatedIsLongOver(r: LegatorRun, cutoff: int)
    ensures Outdated(r, cutoff) <==> LongOver(r, cutoff)
  {
  }

  /** `group` lists exactly the runs of one agent, newest first. */
  ghost predicate Lists(group: seq<LegatorRun>, all: set<LegatorRun>, key: string) {
    NoDup(group) && NewestFirst(group) && forall q :: q in group <==> q in all && AgentKey(q) == key
  }

  lemma NewerIsEarlier(all: set<LegatorRun>, group: seq<LegatorRun>, key: string, i: nat, j: nat)
    requires Lists(group, all, key) && DistinctTimes(all) && i < |group| && j < |group|
    ensures group[j] in Newer(all, group[i]) <==> j < i
  {
    assert group[i] in group && group[j] in group;
    if j < i {
      assert group[j] != group[i];
    } else if i < j {
      assert group[i].created >= group[j].created;
    }
  }

  lemma NewerIsPrefix(all: set<LegatorRun>, group: seq<LegatorRun>, key: string, i: nat)
    requires Lists(group, all, key) && DistinctTimes(all) && i < |group|
    ensures Newer(all, group[i]) == Elements(group[..i])
  {
    assert group[i] in group;
    forall q | q in Newer(all, group[i]) ensures q in Elements(group[..i]) {
      assert q in group;
      var j :| 0 <= j < |group| && group[j] == q;
      NewerIsEarlier(all, group, key, i, j);
      assert group[..i][j] == q;
    }
    forall q | q in Elements(group[..i]) ensures q in Newer(all, group[i]) {
      var j :| 0 <= j < i && group[j] == q;
      NewerIsEarlier(all, group, key, i, j);
    }
  }

  /** With distinct times, a run's position is the number of newer runs. */
  lemma PositionIsNewer(runs: seq<LegatorRun>, groups: Groups, key: string, i: nat)
    requires NoDup(runs) && Grouped(runs, groups) && DistinctTimes(Elements(runs))
    requires key in groups && i < |groups[key]|
    ensures Newer(Elements(runs), groups[key][i]) == Elements(groups[key][..i])
    ensures |Newer(Elements(runs), groups[key][i])| == i
  {
    GroupedIsProper(runs, groups);
    assert Lists(groups[key], Elements(runs), key);
    NewerIsPrefix(Elements(runs), groups[key], key, i);
    SetSize(groups[key][..i]);
  }

  /** So the scan's eligible runs do not depend on map order or on how sorting breaks ties. */
  lemma EligibleIsEligibleSet(c: Config, cutoff: int, runs: seq<LegatorRun>, groups: Groups, r: LegatorRun)
    requires NoDup(runs) && Grouped(runs, groups) && DistinctTimes(Elements(runs))
    ensures Eligible(c, cutoff, groups, r) <==> r in EligibleSet(c, cutoff, Elements(runs))
  {
    GroupedIsProper(runs, groups);
    OutdatedIsLongOver(r, cutoff);
    var key := AgentKey(r);
    if Eligible(c, cutoff, groups, r) {
      var i :| 0 <= i < |groups[key]| && groups[key][i] == r && EligibleAt(c, cutoff, groups[key], i);
      assert r in groups[key];
      PositionIsNewer(runs, groups, key, i);
    }
    if r in EligibleSet(c, cutoff, Elements(runs)) {
      assert r in groups[key];
      var i :| 0 <= i < |groups[key]| && groups[key][i] == r;
      PositionIsNewer(runs, groups, key, i);
    }
  }

  /** Deleting eligible runs changes nothing for the others. */
  lemma DeletionIsNeutral(c: Config, cutoff: int, runs: seq<LegatorRun>, groups: Groups, gone: set<LegatorRun>)
    requires NoDup(runs) && Grouped(runs, groups) && DistinctTimes(Elements(runs))
    requires gone <= EligibleSet(c, cutoff, Elements(runs))
    ensures EligibleSet(c, cutoff, Elements(runs) - gone) == EligibleSet(c, cutoff, Elements(runs)) - gone
  {
    var all := Elements(runs);
    forall r | r in all && r !in gone && LongOver(r, cutoff)
      ensures |Newer(all - gone, r)| >= c.preserveMinPerAgent <==> |Newer(all, r)| >= c.preserveMinPerAgent
    {
      SubsetSize(Newer(all - gone, r), Newer(all, r));
      if |Newer(all, r)| >= c.preserveMinPerAgent {
        NewestSurvive(c, cutoff, runs, groups, gone, r);
      }
    }
  }

  lemma NewestSurvive(c: Config, cutoff: int, runs: seq<LegatorRun>, groups: Groups, gone: set<LegatorRun>, r: LegatorRun)
    requires NoDup(runs) && Grouped(runs, groups) && DistinctTimes(Elements(runs))
    requires gone <= EligibleSet(c, cutoff, Elements(runs))
    requires r in runs && |Newer(Elements(runs), r)| >= c.preserveMinPerAgent
    ensures |Newer(Elements(runs) - gone, r)| >= c.preserveMinPerAgent
  {
    GroupedIsProper(runs, groups);
    var key, all := AgentKey(r), Elements(runs);
    var group := groups[key];
    assert r in group;
    var i :| 0 <= i < |group| && group[i] == r;
    PositionIsNewer(runs, groups, key, i);
    if c.preserveMinPerAgent > 0 {
      var newest := group[..c.preserveMinPerAgent];
      forall q | q in Elements(newest) ensures q in Newer(all - gone, r) {
        var j :| 0 <= j < c.preserveMinPerAgent && group[j] == q;
        PositionIsNewer(runs, groups, key, j);
        assert q in Elements(group[..i]);
      }
      SetSize(newest);
      SubsetSize(Elements(newest), Newer(all - gone, r));
    }
  }

  /** One scan without delete errors lowers the number of eligible runs by a batch. */
  lemma ScanMakesProgress(
    c: Config, cutoff: int, runs: seq<LegatorRun>, groups: Groups,
    toDelete: seq<LegatorRun>, deleted: seq<LegatorRun>, result: ScanResult)
    requires NoDup(runs) && Grouped(runs, groups) && DistinctTimes(Elements(runs))
    requires ScanOutcome(c, cutoff, groups, toDelete, deleted, result) && result.errors == 0
    ensures result.eligible == |EligibleSet(c, cutoff, Elements(runs))|
    ensures |EligibleSet(c, cutoff, Elements(runs) - Elements(deleted))| ==
              result.eligible - MinNat(result.eligible, c.maxDeleteBatch)
  {
    var before := EligibleSet(c, cutoff, Elements(runs));
    forall r ensures r in Elements(toDelete) <==> r in before {
      EligibleIsEligibleSet(c, cutoff, runs, groups, r);
    }
    assert Elements(toDelete) == before;
    SetSize(toDelete);
    SetSize(deleted);
    assert Elements(deleted) <= before;
    DeletionIsNeutral(c, cutoff, runs, groups, Elements(deleted));
    assert |before - Elements(deleted)| == |before| - |Elements(deleted)|;
  }

  datatype Scan = Scan(
    runs: seq<LegatorRun>,
    groups: Groups,
    toDelete: seq<LegatorRun>,
    deleted: seq<LegatorRun>,
    result: ScanResult)

  /** Scans one after the other, with a fixed cutoff, no delete errors and nothing created in between. */
  ghost predicate QuietScans(c: Config, cutoff: int, scans: seq<Scan>) {
    && (forall i :: 0 <= i < |scans| ==>
          && NoDup(scans[i].runs) && Grouped(scans[i].runs, scans[i].groups)
          && ScanOutcome(c, cutoff, scans[i].groups, scans[i].toDelete, scans[i].deleted, scans[i].result)
          && scans[i].result.errors == 0)
    && (scans != [] ==> DistinctTimes(Elements(scans[0].runs)))
    && (forall i :: 0 < i < |scans| ==> Follows(scans[i - 1], scans[i]))
  }

  ghost predicate Follows(a: Scan, b: Scan) { Elements(b.runs) == Elements(a.runs) - Elements(a.deleted) }

  lemma {:induction false} QuietScansShrink(c: Config, cutoff: int, scans: seq<Scan>, i: nat)
    requires QuietScans(c, cutoff, scans) && i < |scans|
    ensures DistinctTimes(Elements(scans[i].runs))
    ensures scans[i].result.eligible == |EligibleSet(c, cutoff, Elements(scans[i].runs))|
    ensures scans[i].result.eligible == MaxZero(scans[0].result.eligible - i * c.maxDeleteBatch)
    decreases i
  {
    if i > 0 {
      QuietScansShrink(c, cutoff, scans, i - 1);
      assert Follows(scans[i - 1], scans[i]);
      var p := scans[i - 1];
      ScanMakesProgress(c, cutoff, p.runs, p.groups, p.toDelete, p.deleted, p.result);
      assert i * c.maxDeleteBatch == (i - 1) * c.maxDeleteBatch + c.maxDeleteBatch;
    }
    var s := scans[i];
    ScanMakesProgress(c, cutoff, s.runs, s.groups, s.toDelete, s.deleted, s.result);
  }

  /** Repeated scans reach a fixed point: after enough batches nothing is eligible and nothing is deleted. */
  lemma ScansConverge(c: Config, cutoff: int, scans: seq<Scan>, i: nat)
    requires QuietScans(c, cutoff, scans) && i < |scans|
    requires i * c.maxDeleteBatch >= scans[0].result.eligible
    ensures scans[i].result.eligible == 0 && scans[i].deleted == []
    ensures EligibleSet(c, cutoff, Elements(scans[i].runs)) == {}
  {
    QuietScansShrink(c, cutoff, scans, i);
  }

  /** Every way a run can end is terminal for the retention controller. */
  lemma EveryOutcomeIsTerminal(r: Runner.RunResult, stop: Option<Runner.Ending>, maxIterations: nat)
    requires Runner.PhaseFollows(r, stop, maxIterations)
    ensures IsTerminal(r.phase)
  {
    assert r.phase in {RunBlocked, Escalated, Succeeded, RunFailed};
  }

  /** ... and a phase that is terminal here is one in which a run can end. */
  lemma TerminalIsAnOutcome(phase: RunPhase) returns (r: Runner.RunResult, stop: Option<Runner.Ending>)
    requires IsTerminal(phase)
    ensures Runner.PhaseFollows(r, stop, 2) && r.phase == phase
  {
    var blocked, escalated := if phase == RunBlocked then 1 else 0, if phase == Escalated then 1 else 0;
    r := Runner.RunResult([], phase, 0, 0, 1, 0, blocked, escalated);
    stop := if phase == RunFailed then Some(Runner.ProviderFailed) else Some(Runner.FinalAnswer("done"));
    assert phase in {Succeeded, RunFailed, Escalated, RunBlocked};
  }
}
