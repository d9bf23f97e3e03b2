/** Costs, token usages and latencies with their running totals: what any sequence of additions and
    merges conserves, and what merging a difference restores. */
module Metrics {
  import opened Util

  datatype Cost = Cost(model: string, cost: real, timestamp: real)

  datatype Latency = Latency(model: string, latency: real, responseId: string)

  datatype TokenUsage = TokenUsage(
    model: string, prompt: int, completion: int, cacheRead: int, cacheWrite: int,
    contextWindow: int, perTurn: int, responseId: string)

  function Max(a: int, b: int): int {
    if a < b then b else a
  }

  /** The + of two usages: the left one's name and response, the right one's per-turn count. */
  function Plus(a: TokenUsage, b: TokenUsage): TokenUsage {
    TokenUsage(a.model, a.prompt + b.prompt, a.completion + b.completion, a.cacheRead + b.cacheRead,
               a.cacheWrite + b.cacheWrite, Max(a.contextWindow, b.contextWindow), b.perTurn, a.responseId)
  }

  datatype Snapshot = Snapshot(
    modelName: string, cost: real, budget: Option<real>, costs: seq<Cost>, latencies: seq<Latency>,
    usages: seq<TokenUsage>, total: TokenUsage)

  function Empty(modelName: string): Snapshot {
    Snapshot(modelName, 0.0, None, [], [], [], TokenUsage(modelName, 0, 0, 0, 0, 0, 0, ""))
  }

  // ----- the totals the lists add up to -----

  function SumOfCosts(costs: seq<Cost>): real {
    if costs == [] then 0.0 else SumOfCosts(costs[..|costs| - 1]) + costs[|costs| - 1].cost
  }

  /** All usages added to an empty one. */
  function SumOfUsages(usages: seq<TokenUsage>): TokenUsage {
    if usages == [] then TokenUsage("", 0, 0, 0, 0, 0, 0, "")
    else Plus(SumOfUsages(usages[..|usages| - 1]), usages[|usages| - 1])
  }

  /** The five counts agree; the context window is a maximum, the others are sums. */
  predicate SameCounts(a: TokenUsage, b: TokenUsage) {
    && a.prompt == b.prompt && a.completion == b.completion && a.cacheRead == b.cacheRead
    && a.cacheWrite == b.cacheWrite && a.contextWindow == b.contextWindow
  }

  predicate Conserved(m: Snapshot) {
    m.cost == SumOfCosts(m.costs) && SameCounts(m.total, SumOfUsages(m.usages))
  }

  lemma {:induction false} SumOfCostsAppend(xs: seq<Cost>, ys: seq<Cost>)
    ensures SumOfCosts(xs + ys) == SumOfCosts(xs) + SumOfCosts(ys)
  {
    if ys == [] {
      assert xs + ys == xs;
    } else {
      assert (xs + ys)[..|xs + ys| - 1] == xs + ys[..|ys| - 1];
      SumOfCostsAppend(xs, ys[..|ys| - 1]);
    }
  }

  lemma PlusAssociates(all: TokenUsage, a: TokenUsage, b: TokenUsage, c: TokenUsage)
    requires SameCounts(all, Plus(a, b))
    ensures SameCounts(Plus(all, c), Plus(a, Plus(b, c)))
  {
  }

  lemma {:induction false} SumOfUsagesAppend(xs: seq<TokenUsage>, ys: seq<TokenUsage>)
    ensures SameCounts(SumOfUsages(xs + ys), Plus(SumOfUsages(xs), SumOfUsages(ys)))
  {
    if ys == [] {
      assert xs + ys == xs;
      WindowIsNonNegative(xs);
    } else {
      var zs, n := xs + ys, |ys| - 1;
      assert zs[..|zs| - 1] == xs + ys[..n] && zs[|zs| - 1] == ys[n];
      SumOfUsagesAppend(xs, ys[..n]);
      PlusAssociates(SumOfUsages(xs + ys[..n]), SumOfUsages(xs), SumOfUsages(ys[..n]), ys[n]);
    }
  }

  lemma {:induction false} WindowIsNonNegative(xs: seq<TokenUsage>)
    ensures SumOfUsages(xs).contextWindow >= 0
  {
    if xs != [] {
      WindowIsNonNegative(xs[..|xs| - 1]);
    }
  }

  // ----- the operations, on values -----

  function AddedCost(m: Snapshot, value: real, timestamp: real): Snapshot {
    m.(cost := m.cost + value, costs := m.costs + [Cost(m.modelName, value, timestamp)])
  }

  function AddedLatency(m: Snapshot, value: real, responseId: string): Snapshot {
    m.(latencies := m.latencies + [Latency(m.modelName, if value < 0.0 then 0.0 else value, responseId)])
  }

  function AddedUsage(m: Snapshot, prompt: int, completion: int, cacheRead: int, cacheWrite: int,
                      contextWindow: int, responseId: string): Snapshot {
    var usage := TokenUsage(m.modelName, prompt, completion, cacheRead, cacheWrite, contextWindow,
        prompt + completion, responseId);
    m.(usages := m.usages + [usage], total := Plus(m.total, usage.(responseId := "")))
  }

  function Merged(m: Snapshot, other: Snapshot): Snapshot {
    m.(cost := m.cost + other.cost,
       budget := if m.budget.None? then other.budget else m.budget,
       costs := m.costs + other.costs, latencies := m.latencies + other.latencies,
       usages := m.usages + other.usages, total := Plus(m.total, other.total))
  }

  function From<T>(xs: seq<T>, n: nat): seq<T> {
    if n <= |xs| then xs[n..] else []
  }

  function LaterThan(t: real): Cost -> bool {
    (c: Cost) => c.timestamp > t
  }

  /** What came on top of `baseline`.  New costs are told apart by their timestamps, new usages and
      latencies by their position. */
  function Gained(m: Snapshot, baseline: Snapshot): Snapshot {
    Snapshot(
      m.modelName, m.cost - baseline.cost, None,
      if baseline.costs != [] then Filtered(m.costs, LaterThan(baseline.costs[|baseline.costs| - 1].timestamp))
          else m.costs,
      From(m.latencies, |baseline.latencies|), From(m.usages, |baseline.usages|),
      TokenUsage(m.modelName, m.total.prompt - baseline.total.prompt, m.total.completion - baseline.total.completion,
                 m.total.cacheRead - baseline.total.cacheRead, m.total.cacheWrite - baseline.total.cacheWrite,
                 m.total.contextWindow, 0, ""))
  }

  // ----- many objects, any sequence of operations -----

  datatype Operation =
    | New(modelName: string)
    | AddCost(to: nat, value: real, timestamp: real)
    | AddLatency(to: nat, value: real, responseId: string)
    | AddUsage(to: nat, prompt: int, completion: int, cacheRead: int, cacheWrite: int, contextWindow: int,
        responseId: string)
    | Merge(to: nat, from: nat)

  predicate Names(world: seq<Snapshot>, op: Operation) {
    match op
    case New(_) => true
    case Merge(to, from) => to < |world| && from < |world|
    case _ => op.to < |world|
  }

  /** A negative cost raises an error and changes nothing. */
  function Perform(world: seq<Snapshot>, op: Operation): (after: seq<Snapshot>)
    requires Names(world, op)
    ensures |world| <= |after|
  {
    match op
    case New(modelName) => world + [Empty(modelName)]
    case AddCost(to, value, timestamp) =>
      if value < 0.0 then world else world[to := AddedCost(world[to], value, timestamp)]
    case AddLatency(to, value, responseId) => world[to := AddedLatency(world[to], value, responseId)]
    case AddUsage(to, prompt, completion, cacheRead, cacheWrite, contextWindow, responseId) =>
      world[to := AddedUsage(world[to], prompt, completion, cacheRead, cacheWrite, contextWindow, responseId)]
    case Merge(to, from) => world[to := Merged(world[to], world[from])]
  }

  predicate IsRun(world: seq<Snapshot>, ops: seq<Operation>)
    decreases |ops|
  {
    ops == [] || (Names(world, ops[0]) && IsRun(Perform(world, ops[0]), ops[1..]))
  }

  function Final(world: seq<Snapshot>, ops: seq<Operation>): (after: seq<Snapshot>)
    requires IsRun(world, ops)
    ensures |world| <= |after|
    decreases |ops|
  {
    if ops == [] then world else Final(Perform(world, ops[0]), ops[1..])
  }

  predicate AllConserved(world: seq<Snapshot>) {
    forall i :: 0 <= i < |world| ==> Conserved(world[i])
  }

  /** Nothing recorded is ever lost or moved. */
  predicate Extends(before: Snapshot, after: Snapshot) {
    before.costs <= after.costs && before.latencies <= after.latencies && before.usages <= after.usages
  }

  lemma PlusKeepsSameCounts(a: TokenUsage, b: TokenUsage, c: TokenUsage, d: TokenUsage, all: TokenUsage)
    requires SameCounts(a, c) && SameCounts(b, d) && SameCounts(all, Plus(c, d))
    ensures SameCounts(Plus(a, b), all)
  {
  }

  lemma MergeConserves(m: Snapshot, other: Snapshot)
    requires Conserved(m) && Conserved(other)
    ensures Conserved(Merged(m, other))
  {
    assert SumOfCosts(m.costs + other.costs) == m.cost + other.cost by {
      SumOfCostsAppend(m.costs, other.costs);
    }
    assert SameCounts(Plus(m.total, other.total), SumOfUsages(m.usages + other.usages)) by {
      SumOfUsagesAppend(m.usages, other.usages);
      PlusKeepsSameCounts(m.total, other.total, SumOfUsages(m.usages), SumOfUsages(other.usages),
          SumOfUsages(m.usages + other.usages));
    }
  }

  lemma EmptyIsConserved(modelName: string)
    ensures Conserved(Empty(modelName))
  {
  }

  lemma AdditionsConserve(m: Snapshot, value: real, timestamp: real, usage: TokenUsage)
    requires Conserved(m)
    ensures Conserved(AddedCost(m, value, timestamp)) && Conserved(AddedLatency(m, value, usage.responseId))
    ensures Conserved(AddedUsage(m, usage.prompt, usage.completion, usage.cacheRead, usage.cacheWrite,
                                 usage.contextWindow, usage.responseId))
  {
    assert (m.costs + [Cost(m.modelName, value, timestamp)])[..|m.costs|] == m.costs;
    var added := AddedUsage(m, usage.prompt, usage.completion, usage.cacheRead, usage.cacheWrite,
        usage.contextWindow, usage.responseId);
    assert added.usages[..|m.usages|] == m.usages;
  }

  lemma PerformConserves(world: seq<Snapshot>, op: Operation)
    requires AllConserved(world) && Names(world, op)
    ensures AllConserved(Perform(world, op))
  {
    hide Conserved, Empty, AddedCost, AddedLatency, AddedUsage, Merged;
    match op
    case New(modelName) => EmptyIsConserved(modelName);
    case AddCost(to, value, timestamp) => AdditionsConserve(world[to], value, timestamp, world[to].total);
    case AddLatency(to, value, responseId) =>
      AdditionsConserve(world[to], value, 0.0, TokenUsage("", 0, 0, 0, 0, 0, 0, responseId));
    case AddUsage(to, prompt, completion, cacheRead, cacheWrite, contextWindow, responseId) =>
      AdditionsConserve(world[to], 0.0, 0.0,
          TokenUsage("", prompt, completion, cacheRead, cacheWrite, contextWindow, 0, responseId));
    case Merge(to, from) => MergeConserves(world[to], world[from]);
  }

  lemma PerformExtends(world: seq<Snapshot>, op: Operation)
    requires Names(world, op)
    ensures forall i :: 0 <= i < |world| ==> Extends(world[i], Perform(world, op)[i])
  {
  }

  /** Conservation: after any sequence of additions and merges, of an object into itself too, the
      accumulated cost and token counts of every object are the sums of its recorded lists, its context
      window their maximum, and no list has lost an entry. */
  lemma {:induction false} RunConserves(world: seq<Snapshot>, ops: seq<Operation>)
    requires AllConserved(world) && IsRun(world, ops)
    ensures AllConserved(Final(world, ops))
    ensures forall i :: 0 <= i < |world| ==> Extends(world[i], Final(world, ops)[i])
    decreases |ops|
  {
    if ops != [] {
      PerformConserves(world, ops[0]);
      PerformExtends(world, ops[0]);
      var next := Perform(world, ops[0]);
      RunConserves(next, ops[1..]);
      forall i | 0 <= i < |world| ensures Extends(world[i], Final(world, ops)[i]) {
        assert Extends(world[i], next[i]) && Extends(next[i], Final(next, ops[1..])[i]);
      }
    }
  }

  // ----- differences -----

  /** The timestamps separate the costs of the baseline from the later ones. */
  predicate Separated(baseline: seq<Cost>, all: seq<Cost>)
    requires baseline <= all
  {
    baseline != [] ==>
      var last := baseline[|baseline| - 1].timestamp;
      && (forall i :: 0 <= i < |baseline| ==> all[i].timestamp <= last)
      && (forall i :: |baseline| <= i < |all| ==> all[i].timestamp > last)
  }

  lemma FilteredToSuffix<T>(xs: seq<T>, ys: seq<T>, p: T -> bool)
    requires Filtered(xs + ys, p) == ys
    ensures (forall i :: 0 <= i < |xs| ==> !p(xs[i])) && (forall i :: 0 <= i < |ys| ==> p(ys[i]))
  {
    forall i | 0 <= i < |ys| ensures p(ys[i]) {
      FilteredSatisfies(xs + ys, p);
      assert ys[i] in Filtered(xs + ys, p);
    }
    assert |Filtered(xs, p)| == 0 by {
      FilteredAppend(xs, ys, p);
      FilteredAll(ys, p);
    }
    forall i | 0 <= i < |xs| ensures !p(xs[i]) {
      if p(xs[i]) { var j := FilteredKeeps(xs, p, i); }
    }
  }

  /** Filtering all of `xs + ys` yields just `ys` exactly when it drops all of `xs` and nothing of `ys`. */
  lemma FilteredIsSuffixExactlyWhen<T>(xs: seq<T>, ys: seq<T>, p: T -> bool)
    ensures Filtered(xs + ys, p) == ys <==>
              (forall i :: 0 <= i < |xs| ==> !p(xs[i])) && (forall i :: 0 <= i < |ys| ==> p(ys[i]))
  {
    if Filtered(xs + ys, p) == ys {
      FilteredToSuffix(xs, ys, p);
    }
    if (forall i :: 0 <= i < |xs| ==> !p(xs[i])) && (forall i :: 0 <= i < |ys| ==> p(ys[i])) {
      FilteredAppend(xs, ys, p);
      FilteredNone(xs, p);
      FilteredAll(ys, p);
    }
  }

  lemma CostsAreRestoredExactlyWhen(baseline: seq<Cost>, all: seq<Cost>)
    requires baseline <= all && baseline != []
    ensures baseline + Filtered(all, LaterThan(baseline[|baseline| - 1].timestamp)) == all <==> Separated(baseline, all)
  {
    var p, later := LaterThan(baseline[|baseline| - 1].timestamp), all[|baseline|..];
    assert all == baseline + later;
    FilteredIsSuffixExactlyWhen(baseline, later, p);
    assert baseline + Filtered(all, p) == all <==> Filtered(all, p) == later by {
      assert (baseline + Filtered(all, p))[|baseline|..] == Filtered(all, p);
    }
    assert (forall i :: |baseline| <= i < |all| ==> p(all[i])) <==> (forall i :: 0 <= i < |later| ==> p(later[i])) by {
      assert forall i :: |baseline| <= i < |all| ==> all[i] == later[i - |baseline|];
    }
  }

  /** Round trip: merging what an object gained since a baseline into that baseline restores its cost,
      usages, latencies and token counts, and restores its list of costs exactly when the timestamps
      separate the old costs from the new ones. */
  lemma DiffRoundTrip(baseline: Snapshot, current: Snapshot)
    requires Conserved(baseline) && Conserved(current) && Extends(baseline, current)
    ensures var r := Merged(baseline, Gained(current, baseline));
            && r.cost == current.cost && r.latencies == current.latencies && r.usages == current.usages
            && SameCounts(r.total, current.total)
            && (r.costs == current.costs <==> Separated(baseline.costs, current.costs))
            && (Separated(baseline.costs, current.costs) ==> Conserved(r))
  {
    var added := current.usages[|baseline.usages|..];
    assert current.usages == baseline.usages + added;
    SumOfUsagesAppend(baseline.usages, added);
    if baseline.costs != [] {
      CostsAreRestoredExactlyWhen(baseline.costs, current.costs);
    }
  }

  /** So it is for every object between any two points of a run. */
  lemma GainsRoundTrip(world: seq<Snapshot>, ops: seq<Operation>, i: nat)
    requires AllConserved(world) && IsRun(world, ops) && i < |world|
    ensures var baseline, current := world[i], Final(world, ops)[i];
            var r := Merged(baseline, Gained(current, baseline));
            && baseline.costs <= current.costs
            && r.cost == current.cost && r.latencies == current.latencies && r.usages == current.usages
            && SameCounts(r.total, current.total)
            && (r.costs == current.costs <==> Separated(baseline.costs, current.costs))
  {
    RunConserves(world, ops);
    DiffRoundTrip(world[i], Final(world, ops)[i]);
  }

  /** Strictly increasing timestamps separate. */
  lemma IncreasingTimestampsSeparate(baseline: seq<Cost>, all: seq<Cost>)
    requires baseline <= all
    requires forall i, j :: 0 <= i < j < |all| ==> all[i].timestamp < all[j].timestamp
    ensures Separated(baseline, all)
  {
    if baseline != [] {
      var last := |baseline| - 1;
      forall i | 0 <= i < |baseline| ensures all[i].timestamp <= all[last].timestamp {
        assert i < last || i == last;
      }
    }
  }

  // ----- the object -----

  method CostsAfter(costs: seq<Cost>, last: real) returns (later: seq<Cost>)
    ensures later == Filtered(costs, LaterThan(last))
  {
    later := [];
    for i := 0 to |costs|
      invariant later == Filtered(costs[..i], LaterThan(last))
    {
      assert costs[..i + 1][..i] == costs[..i];
      if costs[i].timestamp > last {
        later := later + [costs[i]];
      }
    }
    assert costs[..|costs|] == costs;
  }

  class Metrics {
    var accumulatedCost: real
    var maxBudget: Option<real>
    var costs: seq<Cost>
    var responseLatencies: seq<Latency>
    var modelName: string
    var tokenUsages: seq<TokenUsage>
    var accumulatedTokenUsage: TokenUsage

    ghost function View(): Snapshot
      reads this
    {
      Snapshot(modelName, accumulatedCost, maxBudget, costs, responseLatencies, tokenUsages, accumulatedTokenUsage)
    }

    constructor (modelName: string)
      ensures View() == Empty(modelName) && Conserved(View())
    {
      this.modelName, accumulatedCost, maxBudget := modelName, 0.0, None;
      costs, responseLatencies, tokenUsages := [], [], [];
      accumulatedTokenUsage := TokenUsage(modelName, 0, 0, 0, 0, 0, 0, "");
    }

    method AddCost(value: real, now: real) returns (ok: bool)
      modifies this
      ensures ok == (value >= 0.0)
      ensures View() == if ok then AddedCost(old(View()), value, now) else old(View())
      ensures ok ==> accumulatedCost == old(accumulatedCost) + value
      ensures ok ==> costs == old(costs) + [Cost(modelName, value, now)]
    {
      if value < 0.0 {
        return false;
      }
      accumulatedCost := accumulatedCost + value;
      costs := costs + [Cost(modelName, value, now)];
      ok := true;
    }

    method AddResponseLatency(value: real, responseId: string)
      modifies this
      ensures View() == AddedLatency(old(View()), value, responseId)
      ensures |responseLatencies| == |old(responseLatencies)| + 1 && old(responseLatencies) <= responseLatencies
      ensures var record := responseLatencies[|responseLatencies| - 1];
              && record.model == modelName && record.responseId == responseId
              && record.latency >= 0.0 && (value >= 0.0 ==> record.latency == value)
              && (value < 0.0 ==> record.latency == 0.0)
    {
      responseLatencies := responseLatencies + [Latency(modelName, if value < 0.0 then 0.0 else value, responseId)];
    }

    method AddTokenUsage(prompt: int, completion: int, cacheRead: int, cacheWrite: int, contextWindow: int,
                         responseId: string)
      modifies this
      ensures View() == AddedUsage(old(View()), prompt, completion, cacheRead, cacheWrite, contextWindow, responseId)
      ensures |tokenUsages| == |old(tokenUsages)| + 1 && old(tokenUsages) <= tokenUsages
      ensures var record := tokenUsages[|tokenUsages| - 1];
              && record.prompt == prompt && record.completion == completion && record.cacheRead == cacheRead
              && record.cacheWrite == cacheWrite && record.contextWindow == contextWindow
              && record.perTurn == prompt + completion && record.responseId == responseId && record.model == modelName
      ensures var before, after := old(accumulatedTokenUsage), accumulatedTokenUsage;
              && after.prompt == before.prompt + prompt && after.completion == before.completion + completion
              && after.cacheRead == before.cacheRead + cacheRead && after.cacheWrite == before.cacheWrite + cacheWrite
              && after.contextWindow >= before.contextWindow && after.contextWindow >= contextWindow
              && (after.contextWindow == before.contextWindow || after.contextWindow == contextWindow)
              && after.perTurn == prompt + completion
              && after.model == before.model && after.responseId == before.responseId
    {
      var usage := TokenUsage(modelName, prompt, completion, cacheRead, cacheWrite, contextWindow,
          prompt + completion, responseId);
      tokenUsages := tokenUsages + [usage];
      accumulatedTokenUsage := Plus(accumulatedTokenUsage, usage.(responseId := ""));
    }

    /** `other` may be this very object. */
    method Merge(other: Metrics)
      modifies this
      ensures View() == Merged(old(View()), old(other.View()))
      ensures other != this ==> other.View() == old(other.View())
      ensures old(Conserved(View()) && Conserved(other.View())) ==> Conserved(View())
      ensures modelName == old(modelName)
      ensures maxBudget.None? <==> old(maxBudget).None? && old(other.maxBudget).None?
      ensures maxBudget == old(maxBudget) || (old(maxBudget).None? && maxBudget == old(other.maxBudget))
      ensures var before, after := old(accumulatedTokenUsage), accumulatedTokenUsage;
              && after.perTurn == old(other.accumulatedTokenUsage.perTurn)
              && after.model == before.model && after.responseId == before.responseId
    {
      MergeConservesIfConserved(View(), other.View());
      accumulatedCost := accumulatedCost + other.accumulatedCost;
      if maxBudget.None? && other.maxBudget.Some? {
        maxBudget := other.maxBudget;
      }
      costs := costs + other.costs;
      tokenUsages := tokenUsages + other.tokenUsages;
      responseLatencies := responseLatencies + other.responseLatencies;
      accumulatedTokenUsage := Plus(accumulatedTokenUsage, other.accumulatedTokenUsage);
    }

    method Diff(baseline: Metrics) returns (result: Metrics)
      ensures fresh(result) && result.View() == Gained(View(), baseline.View())
    {
      hide Filtered, Conserved;
      result := new Metrics(modelName);
      result.accumulatedCost := accumulatedCost - baseline.accumulatedCost;
      if baseline.costs != [] {
        var last := baseline.costs[|baseline.costs| - 1].timestamp;
        var later := CostsAfter(costs, last);
        result.costs := later;
      } else {
        result.costs := costs;
      }
      result.responseLatencies := From(responseLatencies, |baseline.responseLatencies|);
      result.tokenUsages := From(tokenUsages, |baseline.tokenUsages|);
      var before, now := baseline.accumulatedTokenUsage, accumulatedTokenUsage;
      result.accumulatedTokenUsage := TokenUsage(
        modelName, now.prompt - before.prompt, now.completion - before.completion, now.cacheRead - before.cacheRead,
        now.cacheWrite - before.cacheWrite, now.contextWindow, 0, "");
    }
  }

  lemma MergeConservesIfConserved(m: Snapshot, other: Snapshot)
    ensures Conserved(m) && Conserved(other) ==> Conserved(Merged(m, other))
  {
    if Conserved(m) && Conserved(other) {
      MergeConserves(m, other);
    }
  }
}
