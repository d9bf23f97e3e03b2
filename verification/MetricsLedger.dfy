/** The totals of a metrics object against what was reported to it: the arguments of the calls, whether made
    on the object itself or on one merged into it. */
module MetricsLedger {
  import opened Util
  import opened Metrics

  /** For every object, the calls whose arguments reached it, in the order its lists have them. */
  type Ledger = seq<seq<Operation>>

  function Booked(ledger: Ledger, op: Operation): (after: Ledger)
    requires NamesEntry(ledger, op)
    ensures |ledger| <= |after|
  {
    match op
    case New(_) => ledger + [[]]
    case Merge(to, from) => ledger[to := ledger[to] + ledger[from]]
    case _ => ledger[op.to := ledger[op.to] + [op]]
  }

  predicate NamesEntry(ledger: Ledger, op: Operation) {
    match op
    case New(_) => true
    case Merge(to, from) => to < |ledger| && from < |ledger|
    case _ => op.to < |ledger|
  }

  // ----- sums over the arguments -----

  /** What a call reports as the value of one count. */
  type Count = Operation -> int

  const Prompt: Count := (op: Operation) => if op.AddUsage? then op.prompt else 0
  const Completion: Count := (op: Operation) => if op.AddUsage? then op.completion else 0
  const CacheRead: Count := (op: Operation) => if op.AddUsage? then op.cacheRead else 0
  const CacheWrite: Count := (op: Operation) => if op.AddUsage? then op.cacheWrite else 0
  const Window: Count := (op: Operation) => if op.AddUsage? then op.contextWindow else 0

  function Sum(ops: seq<Operation>, count: Count): int {
    if ops == [] then 0 else Sum(ops[..|ops| - 1], count) + count(ops[|ops| - 1])
  }

  /** The largest value, 0 at least. */
  function Largest(ops: seq<Operation>, count: Count): (m: int)
    ensures m >= 0 && forall i :: 0 <= i < |ops| ==> count(ops[i]) <= m
    ensures m == 0 || exists i :: 0 <= i < |ops| && count(ops[i]) == m
  {
    if ops == [] then 0
    else
      var before, last := Largest(ops[..|ops| - 1], count), count(ops[|ops| - 1]);
      if before < last then last else before
  }

  /** A negative cost is refused. */
  function Spent(ops: seq<Operation>): real {
    if ops == [] then 0.0
    else
      var op := ops[|ops| - 1];
      Spent(ops[..|ops| - 1]) + (if op.AddCost? && op.value >= 0.0 then op.value else 0.0)
  }

  /** The usages reported, one after the other. */
  function Usages(ops: seq<Operation>): seq<Operation> {
    Filtered(ops, (op: Operation) => op.AddUsage?)
  }

  lemma {:induction false} SumAppend(xs: seq<Operation>, ys: seq<Operation>, count: Count)
    ensures Sum(xs + ys, count) == Sum(xs, count) + Sum(ys, count)
  {
    if ys == [] {
      assert xs + ys == xs;
    } else {
      assert (xs + ys)[..|xs + ys| - 1] == xs + ys[..|ys| - 1];
      SumAppend(xs, ys[..|ys| - 1], count);
    }
  }

  lemma {:induction false} LargestAppend(xs: seq<Operation>, ys: seq<Operation>, count: Count)
    ensures Largest(xs + ys, count) == Max(Largest(xs, count), Largest(ys, count))
  {
    if ys == [] {
      assert xs + ys == xs;
    } else {
      assert (xs + ys)[..|xs + ys| - 1] == xs + ys[..|ys| - 1];
      LargestAppend(xs, ys[..|ys| - 1], count);
    }
  }

  lemma {:induction false} SpentAppend(xs: seq<Operation>, ys: seq<Operation>)
    ensures Spent(xs + ys) == Spent(xs) + Spent(ys)
  {
    if ys == [] {
      assert xs + ys == xs;
    } else {
      assert (xs + ys)[..|xs + ys| - 1] == xs + ys[..|ys| - 1];
      SpentAppend(xs, ys[..|ys| - 1]);
    }
  }

  // ----- the account -----

  /** The totals of an object are those of the arguments that reached it. */
  ghost predicate TotalsMatch(m: Snapshot, ops: seq<Operation>) {
    && m.total.prompt == Sum(ops, Prompt) && m.total.completion == Sum(ops, Completion)
    && m.total.cacheRead == Sum(ops, CacheRead) && m.total.cacheWrite == Sum(ops, CacheWrite)
    && m.total.contextWindow == Largest(ops, Window)
    && m.cost == Spent(ops)
  }

  /** Each record has the counts of one reported usage. */
  predicate IsRecordOf(u: TokenUsage, op: Operation) {
    && op.AddUsage? && u.prompt == op.prompt && u.completion == op.completion && u.cacheRead == op.cacheRead
    && u.cacheWrite == op.cacheWrite && u.contextWindow == op.contextWindow
    && u.perTurn == op.prompt + op.completion && u.responseId == op.responseId
  }

  /** There is one record for every usage reported, in order. */
  ghost predicate RecordsMatch(m: Snapshot, ops: seq<Operation>) {
    && |m.usages| == |Usages(ops)|
    && forall i :: 0 <= i < |m.usages| ==> IsRecordOf(m.usages[i], Usages(ops)[i])
  }

  ghost predicate Accounted(world: seq<Snapshot>, ledger: Ledger) {
    && |world| == |ledger|
    && forall i :: 0 <= i < |world| ==> TotalsMatch(world[i], ledger[i]) && RecordsMatch(world[i], ledger[i])
  }

  lemma SumOfOne(op: Operation)
    ensures forall count: Count :: Sum([op], count) == count(op)
    ensures Largest([op], Window) == Max(0, Window(op))
    ensures Spent([op]) == if op.AddCost? && op.value >= 0.0 then op.value else 0.0
  {
    assert [op][..0] == [];
  }

  lemma TotalsOfMore(m: Snapshot, ops: seq<Operation>, other: Snapshot, more: seq<Operation>)
    requires TotalsMatch(m, ops) && TotalsMatch(other, more)
    ensures TotalsMatch(Merged(m, other), ops + more)
  {
    SumAppend(ops, more, Prompt);
    SumAppend(ops, more, Completion);
    SumAppend(ops, more, CacheRead);
    SumAppend(ops, more, CacheWrite);
    LargestAppend(ops, more, Window);
    SpentAppend(ops, more);
  }

  lemma RecordsOfMore(m: Snapshot, ops: seq<Operation>, other: Snapshot, more: seq<Operation>)
    requires RecordsMatch(m, ops) && RecordsMatch(other, more)
    ensures RecordsMatch(Merged(m, other), ops + more)
  {
    FilteredAppend(ops, more, (op: Operation) => op.AddUsage?);
  }

  /** The value of the object after one more call, which is no merge. */
  function After(m: Snapshot, op: Operation): Snapshot
    requires op.AddCost? || op.AddLatency? || op.AddUsage?
  {
    match op
    case AddCost(_, value, timestamp) => if value < 0.0 then m else AddedCost(m, value, timestamp)
    case AddLatency(_, value, responseId) => AddedLatency(m, value, responseId)
    case AddUsage(_, prompt, completion, cacheRead, cacheWrite, contextWindow, responseId) =>
      AddedUsage(m, prompt, completion, cacheRead, cacheWrite, contextWindow, responseId)
  }

  lemma CallMatches(m: Snapshot, ops: seq<Operation>, op: Operation)
    requires op.AddCost? || op.AddLatency? || op.AddUsage?
    requires TotalsMatch(m, ops) && RecordsMatch(m, ops)
    ensures TotalsMatch(After(m, op), ops + [op]) && RecordsMatch(After(m, op), ops + [op])
  {
    CallMatchesTotals(m, ops, op);
    CallMatchesRecords(m, ops, op);
  }

  lemma CallMatchesTotals(m: Snapshot, ops: seq<Operation>, op: Operation)
    requires (op.AddCost? || op.AddLatency? || op.AddUsage?) && TotalsMatch(m, ops)
    ensures TotalsMatch(After(m, op), ops + [op])
  {
    SumOfOne(op);
    SumAppend(ops, [op], Prompt);
    SumAppend(ops, [op], Completion);
    SumAppend(ops, [op], CacheRead);
    SumAppend(ops, [op], CacheWrite);
    LargestAppend(ops, [op], Window);
    SpentAppend(ops, [op]);
    hide Sum, Largest, Spent, Usages;
  }

  lemma CallMatchesRecords(m: Snapshot, ops: seq<Operation>, op: Operation)
    requires (op.AddCost? || op.AddLatency? || op.AddUsage?) && RecordsMatch(m, ops)
    ensures RecordsMatch(After(m, op), ops + [op])
  {
    FilteredOne(op, (o: Operation) => o.AddUsage?);
    FilteredAppend(ops, [op], (o: Operation) => o.AddUsage?);
    hide Filtered;
  }

  lemma PerformKeepsAccount(world: seq<Snapshot>, ledger: Ledger, op: Operation)
    requires Accounted(world, ledger) && Names(world, op)
    ensures NamesEntry(ledger, op) && Accounted(Perform(world, op), Booked(ledger, op))
  {
    hide TotalsMatch, RecordsMatch, AddedCost, AddedLatency, AddedUsage, Merged;
    match op
    case New(modelName) => EmptyMatches(modelName);
    case Merge(to, from) =>
      TotalsOfMore(world[to], ledger[to], world[from], ledger[from]);
      RecordsOfMore(world[to], ledger[to], world[from], ledger[from]);
    case _ =>
      CallMatches(world[op.to], ledger[op.to], op);
      assert Perform(world, op) == world[op.to := After(world[op.to], op)];
  }

  lemma EmptyMatches(modelName: string)
    ensures TotalsMatch(Empty(modelName), []) && RecordsMatch(Empty(modelName), [])
  {
  }

  /** The ledger after a run. */
  function Kept(ledger: Ledger, world: seq<Snapshot>, ops: seq<Operation>): Ledger
    requires |ledger| == |world| && IsRun(world, ops)
    decreases |ops|
  {
    if ops == [] then ledger else Kept(Booked(ledger, ops[0]), Perform(world, ops[0]), ops[1..])
  }

  lemma {:induction false} RunKeepsAccount(world: seq<Snapshot>, ledger: Ledger, ops: seq<Operation>)
    requires Accounted(world, ledger) && IsRun(world, ops)
    ensures Accounted(Final(world, ops), Kept(ledger, world, ops))
    decreases |ops|
  {
    if ops != [] {
      PerformKeepsAccount(world, ledger, ops[0]);
      RunKeepsAccount(Perform(world, ops[0]), Booked(ledger, ops[0]), ops[1..]);
    }
  }

  /** After any run over objects created by it, each total is the sum of the arguments reported to the object
      or to one merged into it (as often as it was merged), the context window their largest, the cost the
      sum of the costs that were not refused, and there is one record for every usage, in order. */
  lemma TotalsAreWhatWasReported(ops: seq<Operation>, i: nat)
    requires IsRun([], ops) && i < |Final([], ops)|
    ensures var m := Final([], ops)[i];
            && i < |Kept([], [], ops)|
            && var reached := Kept([], [], ops)[i];
            && m.total.prompt == Sum(reached, Prompt) && m.total.completion == Sum(reached, Completion)
            && m.total.cacheRead == Sum(reached, CacheRead) && m.total.cacheWrite == Sum(reached, CacheWrite)
            && m.total.contextWindow == Largest(reached, Window) && m.cost == Spent(reached)
            && RecordsMatch(m, reached)
  {
    RunKeepsAccount([], [], ops);
  }
}
