/** Evaluation runs that are cut off and resumed: which instances are still to do, how one is retried, and
    that over any series of runs no result is written twice. */
module Evaluation {
  import opened Util

  datatype Instance = Instance(id: string, data: string)

  function Ids(xs: seq<Instance>): (ids: seq<string>)
    ensures |ids| == |xs| && forall i :: 0 <= i < |xs| ==> ids[i] == xs[i].id
  {
    seq(|xs|, i requires 0 <= i < |xs| => xs[i].id)
  }

  // ----- the selection -----

  /** `sample` draws with a fixed seed, so it is a function. */
  datatype Arguments = Arguments(
    evalIds: seq<string>, skip: Option<int>, limit: int,
    sample: (seq<Instance>, nat) -> seq<Instance>, filter: Option<seq<Instance> -> seq<Instance>>)

  function Sampled(a: Arguments, d: seq<Instance>): seq<Instance> {
    if a.limit > 0 then a.sample(d, if a.limit < |d| then a.limit else |d|) else d
  }

  /** Ids win over skipping; a skip of zero or less counts as none. */
  function Chosen(a: Arguments, d: seq<Instance>): seq<Instance> {
    if a.evalIds != [] then Filtered(d, (x: Instance) => x.id in a.evalIds)
    else if a.skip.Some? && a.skip.value > 0 then Sampled(a, d[if a.skip.value < |d| then a.skip.value else |d|..])
    else Sampled(a, d)
  }

  function Selected(a: Arguments, d: seq<Instance>): seq<Instance> {
    if a.filter.Some? then a.filter.value(Chosen(a, d)) else Chosen(a, d)
  }

  /** What is left when the output file holds results for `finished`. */
  function Remaining(selected: seq<Instance>, finished: seq<string>): seq<Instance> {
    Filtered(selected, (x: Instance) => x.id !in finished)
  }

  /** A line of the output file. */
  datatype Output = Output(id: string, error: Option<string>)

  function LineIds(lines: seq<Output>): (ids: seq<string>)
    ensures |ids| == |lines| && forall i :: 0 <= i < |lines| ==> ids[i] == lines[i].id
  {
    seq(|lines|, i requires 0 <= i < |lines| => lines[i].id)
  }

  /** `file` is None if it does not exist. */
  function Finished(file: Option<seq<Output>>): seq<string> {
    if file.Some? then LineIds(file.value) else []
  }

  /** Every line counts, also one that records an error. */
  method PrepareDataset(d: seq<Instance>, file: Option<seq<Output>>, a: Arguments) returns (todo: seq<Instance>)
    ensures todo == Remaining(Selected(a, d), Finished(file))
  {
    var finished: set<string> := {};
    if file.Some? {
      ghost var ids := LineIds(file.value);
      for i := 0 to |file.value|
        invariant finished == Elements(ids[..i])
      {
        ElementsOfSnoc(ids, i);
        finished := finished + {file.value[i].id};
      }
      assert ids[..|file.value|] == ids;
    }
    var dataset := d;
    if a.evalIds != [] {
      dataset := Filtered(d, (x: Instance) => x.id in a.evalIds);
    } else if a.skip.Some? && a.skip.value > 0 {
      dataset := d[if a.skip.value < |d| then a.skip.value else |d|..];
      dataset := Sampled(a, dataset);
    } else if a.limit > 0 {
      dataset := a.sample(d, if a.limit < |d| then a.limit else |d|);
    }
    if a.filter.Some? {
      dataset := a.filter.value(dataset);
    }
    todo := [];
    for i := 0 to |dataset|
      invariant todo == Remaining(dataset[..i], Finished(file))
    {
      assert dataset[..i + 1][..i] == dataset[..i];
      if dataset[i].id !in finished {
        todo := todo + [dataset[i]];
      }
    }
    assert dataset[..|dataset|] == dataset;
  }

  // ----- the selection keeps ids distinct -----

  /** Sampling without replacement. */
  ghost predicate IsSampler(sample: (seq<Instance>, nat) -> seq<Instance>) {
    forall d, n: nat :: AreDistinct(Ids(d)) && n <= |d| ==> AreDistinct(Ids(sample(d, n)))
  }

  ghost predicate KeepsDistinct(f: seq<Instance> -> seq<Instance>) {
    forall d :: AreDistinct(Ids(d)) ==> AreDistinct(Ids(f(d)))
  }

  lemma {:induction false} FilteredMembers(xs: seq<Instance>, p: Instance -> bool)
    ensures forall x :: x in Filtered(xs, p) <==> x in xs && p(x)
  {
    if xs != [] {
      assert xs == xs[..|xs| - 1] + [xs[|xs| - 1]];
      FilteredMembers(xs[..|xs| - 1], p);
    }
  }

  lemma DistinctSnoc(xs: seq<Instance>, x: Instance)
    ensures AreDistinct(Ids(xs + [x])) <==> AreDistinct(Ids(xs)) && forall y :: y in xs ==> y.id != x.id
  {
    var n := |xs|;
    assert Ids(xs + [x]) == Ids(xs) + [x.id];
    if AreDistinct(Ids(xs + [x])) {
      forall i, j | 0 <= i < j < n ensures Ids(xs)[i] != Ids(xs)[j] {
        assert Ids(xs + [x])[i] != Ids(xs + [x])[j];
      }
      forall y | y in xs ensures y.id != x.id {
        var i :| 0 <= i < n && xs[i] == y;
        assert Ids(xs + [x])[i] != Ids(xs + [x])[n];
      }
    }
  }

  lemma {:induction false} FilteredKeepsDistinct(xs: seq<Instance>, p: Instance -> bool)
    requires AreDistinct(Ids(xs))
    ensures AreDistinct(Ids(Filtered(xs, p)))
  {
    if xs != [] {
      var init, x := xs[..|xs| - 1], xs[|xs| - 1];
      assert xs == init + [x];
      DistinctSnoc(init, x);
      FilteredKeepsDistinct(init, p);
      FilteredMembers(init, p);
      DistinctSnoc(Filtered(init, p), x);
    }
  }

  lemma SelectionIsDistinct(a: Arguments, d: seq<Instance>)
    requires AreDistinct(Ids(d)) && IsSampler(a.sample) && (a.filter.Some? ==> KeepsDistinct(a.filter.value))
    ensures AreDistinct(Ids(Selected(a, d)))
  {
    FilteredKeepsDistinct(d, (x: Instance) => x.id in a.evalIds);
    if a.skip.Some? && a.skip.value > 0 {
      var n := if a.skip.value < |d| then a.skip.value else |d|;
      forall i, j | 0 <= i < j < |d[n..]| ensures Ids(d[n..])[i] != Ids(d[n..])[j] {
        assert Ids(d)[n + i] != Ids(d)[n + j];
      }
    }
  }

  /** Sampling draws as many of the instances as it is asked for. */
  ghost predicate DrawsFrom(sample: (seq<Instance>, nat) -> seq<Instance>) {
    forall d, n: nat :: n <= |d| ==> |sample(d, n)| == n && forall x :: x in sample(d, n) ==> x in d
  }

  /** A filter sees what the other arguments select, and nothing else. */
  lemma FilterComesLast(a: Arguments, d: seq<Instance>)
    ensures a.filter.Some? ==> Selected(a, d) == a.filter.value(Selected(a.(filter := None), d))
    ensures a.filter.None? ==> Selected(a, d) == Chosen(a, d)
  {
  }

  /** Which instances are chosen: with ids given exactly those of the dataset that bear one of them, whatever
      is to be skipped or sampled; without, all behind the skipped ones, or a sample of these of at most
      `limit`. */
  lemma ChosenExactly(a: Arguments, d: seq<Instance>)
    requires DrawsFrom(a.sample)
    ensures a.evalIds != [] ==> forall x :: x in Chosen(a, d) <==> x in d && x.id in a.evalIds
    ensures a.evalIds == [] ==>
              var skipped := if a.skip.None? || a.skip.value < 0 then 0 else Min(a.skip.value, |d|);
              && |Chosen(a, d)| == (if a.limit > 0 then Min(a.limit, |d| - skipped) else |d| - skipped)
              && (a.limit <= 0 ==> forall i :: 0 <= i < |Chosen(a, d)| ==> Chosen(a, d)[i] == d[skipped + i])
              && (forall x :: x in Chosen(a, d) ==> exists i :: skipped <= i < |d| && d[i] == x)
  {
    FilteredMembers(d, (x: Instance) => x.id in a.evalIds);
    var skipped := if a.skip.None? || a.skip.value < 0 then 0 else Min(a.skip.value, |d|);
    var rest := d[skipped..];
    if a.evalIds == [] {
      assert d[0..] == d;
      assert Chosen(a, d) == Sampled(a, rest);
      forall x | x in Chosen(a, d) ensures exists i :: skipped <= i < |d| && d[i] == x {
        assert x in rest;
        var i :| 0 <= i < |rest| && rest[i] == x;
        assert d[skipped + i] == x;
      }
    }
  }

  // ----- one instance, with retries -----

  /** One attempt: a result, a timeout, or another exception. */
  datatype Attempt = Success(output: Output) | Timeout(seconds: nat) | Failure(fatal: bool, error: string)

  datatype Result = Returned(output: Output) | Raised | NoResult

  function TimedOut(seconds: nat): string {
    "Timeout after " + Decimal(seconds) + " seconds"
  }

  function GaveUp(maxRetries: nat, error: string): string {
    "Maximum retries (" + Decimal(maxRetries) + ") reached: " + error
  }

  /** What attempt `i` does depends on how many fatal failures came before it. */
  function FatalBefore(process: (nat, nat) -> Attempt, i: nat): (n: nat)
    ensures n <= i
  {
    if i == 0 then 0
    else
      var a := process(i - 1, FatalBefore(process, i - 1));
      FatalBefore(process, i - 1) + (if a.Failure? && a.fatal then 1 else 0)
  }

  /** An attempt is told how many of those before it failed fatally. */
  lemma {:induction false} FatalFailuresAreCounted(process: (nat, nat) -> Attempt, i: nat)
    ensures FatalBefore(process, i)
            == |set j: nat | j < i && AttemptAt(process, j).Failure? && AttemptAt(process, j).fatal|
    ensures AttemptAt(process, i) == process(i, FatalBefore(process, i))
  {
    if i > 0 {
      FatalFailuresAreCounted(process, i - 1);
      var before := set j: nat | j < i - 1 && AttemptAt(process, j).Failure? && AttemptAt(process, j).fatal;
      var now := set j: nat | j < i && AttemptAt(process, j).Failure? && AttemptAt(process, j).fatal;
      var last := AttemptAt(process, i - 1);
      assert now == if last.Failure? && last.fatal then before + {i - 1} else before;
    }
  }

  function AttemptAt(process: (nat, nat) -> Attempt, i: nat): Attempt {
    process(i, FatalBefore(process, i))
  }

  /** What the wrapper makes of the attempts from the `i`-th on. */
  function Processed(instance: Instance, process: (nat, nat) -> Attempt, maxRetries: int, skipErrors: bool,
                     i: nat): Result
    decreases maxRetries - i
  {
    if i > maxRetries then NoResult
    else
      match AttemptAt(process, i)
      case Success(output) => Returned(output)
      case Timeout(seconds) => Returned(Output(instance.id, Some(TimedOut(seconds))))
      case Failure(_, error) =>
        if i < maxRetries then Processed(instance, process, maxRetries, skipErrors, i + 1)
        else if skipErrors then Returned(Output(instance.id, Some(GaveUp(maxRetries, error))))
        else Raised
  }

  /** At most maxRetries + 1 attempts are made, all but the last of them failures; a result or a timeout
      is returned at once, and the last failure raises unless errors are to be skipped.  A negative
      number of retries makes no attempt and yields nothing. */
  method ProcessInstance(instance: Instance, process: (nat, nat) -> Attempt, maxRetries: int, skipErrors: bool)
    returns (result: Result, attempts: nat)
    ensures result == Processed(instance, process, maxRetries, skipErrors, 0)
    ensures maxRetries < 0 ==> attempts == 0 && result == NoResult
    ensures maxRetries >= 0 ==> 1 <= attempts <= maxRetries + 1
    ensures forall i :: 0 <= i && i + 1 < attempts ==> AttemptAt(process, i).Failure?
    ensures maxRetries >= 0 ==>
              match AttemptAt(process, attempts - 1)
              case Success(output) => result == Returned(output)
              case Timeout(seconds) =>
                result == Returned(Output(instance.id, Some("Timeout after " + Decimal(seconds) + " seconds")))
              case Failure(_, error) =>
                && attempts == maxRetries + 1
                && var text := "Maximum retries (" + Decimal(maxRetries) + ") reached: " + error;
                   result == if skipErrors then Returned(Output(instance.id, Some(text))) else Raised
  {
    var failures := 0;
    attempts := 0;
    var attempt: nat := 0;
    while attempt <= maxRetries
      invariant attempts == attempt && (maxRetries >= 0 ==> attempt <= maxRetries) && (maxRetries < 0 ==> attempt == 0)
      invariant failures == FatalBefore(process, attempt)
      invariant forall i :: 0 <= i < attempt ==> AttemptAt(process, i).Failure?
      invariant Processed(instance, process, maxRetries, skipErrors, 0)
                == Processed(instance, process, maxRetries, skipErrors, attempt)
      decreases maxRetries - attempt
    {
      var outcome := process(attempt, failures);
      assert outcome == AttemptAt(process, attempt);
      attempts := attempts + 1;
      if outcome.Success? {
        return Returned(outcome.output), attempts;
      }
      if outcome.Timeout? {
        return Returned(Output(instance.id, Some(TimedOut(outcome.seconds)))), attempts;
      }
      if attempt == maxRetries {
        result := if skipErrors then Returned(Output(instance.id, Some(GaveUp(maxRetries, outcome.error)))) else Raised;
        return;
      }
      if outcome.fatal {
        failures := failures + 1;
      }
      attempt := attempt + 1;
    }
    result := NoResult;
  }

  // ----- runs -----

  /** What one run appends: results of some of the remaining instances, in any order, each once. */
  ghost predicate IsRun(todo: seq<Instance>, written: seq<string>) {
    AreDistinct(written) && forall id :: id in written ==> id in Ids(todo)
  }

  ghost predicate IsComplete(todo: seq<Instance>, written: seq<string>) {
    forall id :: id in Ids(todo) ==> id in written
  }

  /** Each run works on what the file left over by the runs before it. */
  ghost predicate IsSeries(selected: seq<Instance>, file: seq<string>, runs: seq<seq<string>>)
    decreases |runs|
  {
    runs == [] || (IsRun(Remaining(selected, file), runs[0]) && IsSeries(selected, file + runs[0], runs[1..]))
  }

  function After(file: seq<string>, runs: seq<seq<string>>): seq<string>
    decreases |runs|
  {
    if runs == [] then file else After(file + runs[0], runs[1..])
  }

  /** What `process` does to each instance, by its id. */
  type Processing = string -> ((nat, nat) -> Attempt)

  /** A result carries the id of its instance. */
  ghost predicate CarriesIds(process: Processing) {
    forall id, i, n :: process(id)(i, n).Success? ==> process(id)(i, n).output.id == id
  }

  /** The lines one worker writes: one per instance, up to the first that yields none. */
  function WrittenBy(todo: seq<Instance>, process: Processing, maxRetries: int, skipErrors: bool): seq<Output> {
    if todo == [] then []
    else
      var result := Processed(todo[0], process(todo[0].id), maxRetries, skipErrors, 0);
      if result.Returned? then [result.output] + WrittenBy(todo[1..], process, maxRetries, skipErrors) else []
  }

  lemma {:induction false} ProcessedCarriesId(instance: Instance, process: Processing, maxRetries: int,
                                              skipErrors: bool, i: nat)
    requires CarriesIds(process)
    ensures var r := Processed(instance, process(instance.id), maxRetries, skipErrors, i);
            r.Returned? ==> r.output.id == instance.id
    decreases maxRetries - i
  {
    if i < maxRetries {
      ProcessedCarriesId(instance, process, maxRetries, skipErrors, i + 1);
    }
  }

  /** The lines stand for the first instances, in order. */
  lemma {:induction false} WrittenIsPrefix(todo: seq<Instance>, process: Processing, maxRetries: int, skipErrors: bool)
    requires CarriesIds(process)
    ensures LineIds(WrittenBy(todo, process, maxRetries, skipErrors)) <= Ids(todo)
  {
    hide Processed, CarriesIds, Ids, LineIds;
    if todo != [] {
      ProcessedCarriesId(todo[0], process, maxRetries, skipErrors, 0);
      WrittenIsPrefix(todo[1..], process, maxRetries, skipErrors);
      var result := Processed(todo[0], process(todo[0].id), maxRetries, skipErrors, 0);
      if result.Returned? {
        var rest := WrittenBy(todo[1..], process, maxRetries, skipErrors);
        IdsOfRest(todo);
        LineIdsOfMore(result.output, rest);
        assert [todo[0].id] + LineIds(rest) <= [todo[0].id] + Ids(todo[1..]);
      }
    }
  }

  lemma IdsOfRest(todo: seq<Instance>)
    requires todo != []
    ensures Ids(todo) == [todo[0].id] + Ids(todo[1..])
  {
  }

  lemma LineIdsOfMore(line: Output, rest: seq<Output>)
    ensures LineIds([line] + rest) == [line.id] + LineIds(rest)
  {
  }

  /** A run of one worker: it writes each result as it comes, and ends early at an instance that yields
      none. */
  method RunEvaluation(todo: seq<Instance>, process: Processing, maxRetries: int, skipErrors: bool)
    returns (written: seq<Output>, finished: bool)
    requires AreDistinct(Ids(todo)) && CarriesIds(process)
    ensures written == WrittenBy(todo, process, maxRetries, skipErrors)
    ensures LineIds(written) <= Ids(todo) && IsRun(todo, LineIds(written))
    ensures finished ==> LineIds(written) == Ids(todo) && IsComplete(todo, LineIds(written))
    ensures maxRetries >= 0 && skipErrors ==> finished
  {
    written, finished := [], true;
    assert todo[0..] == todo;
    for i := 0 to |todo|
      invariant |written| == i && finished
      invariant WrittenBy(todo, process, maxRetries, skipErrors)
                == written + WrittenBy(todo[i..], process, maxRetries, skipErrors)
    {
      var instance := todo[i];
      var result, attempts := ProcessInstance(instance, process(instance.id), maxRetries, skipErrors);
      assert todo[i..][0] == instance && todo[i..][1..] == todo[i + 1..];
      if result.Returned? {
        AppendAssociates(written, [result.output], WrittenBy(todo[i + 1..], process, maxRetries, skipErrors));
        written := written + [result.output];
      } else {
        finished := false;
        break;
      }
    }
    WrittenIsPrefix(todo, process, maxRetries, skipErrors);
  }

  // ----- skipped errors -----

  ghost predicate AllFail(process: (nat, nat) -> Attempt, maxRetries: int) {
    forall i: nat :: i <= maxRetries ==> AttemptAt(process, i).Failure?
  }

  lemma {:induction false} AllFailIsProcessed(instance: Instance, process: (nat, nat) -> Attempt, maxRetries: int,
                                              skipErrors: bool, i: nat)
    requires AllFail(process, maxRetries) && i <= maxRetries
    ensures Processed(instance, process, maxRetries, skipErrors, i)
            == if skipErrors
               then Returned(Output(instance.id, Some(GaveUp(maxRetries, AttemptAt(process, maxRetries).error))))
               else Raised
    decreases maxRetries - i
  {
    if i < maxRetries {
      AllFailIsProcessed(instance, process, maxRetries, skipErrors, i + 1);
    }
  }

  lemma {:induction false} SkippingReturns(instance: Instance, process: (nat, nat) -> Attempt, maxRetries: int, i: nat)
    requires i <= maxRetries
    ensures Processed(instance, process, maxRetries, true, i).Returned?
    decreases maxRetries - i
  {
    if i < maxRetries {
      SkippingReturns(instance, process, maxRetries, i + 1);
    }
  }

  /** The line a run writes for an instance whose attempts all fail: one that records the error if errors
      are skipped, and none otherwise. */
  lemma {:induction false} LineOfFailing(todo: seq<Instance>, process: Processing, maxRetries: int, skipErrors: bool,
                                         k: nat)
    requires AreDistinct(Ids(todo)) && CarriesIds(process) && maxRetries >= 0
    requires k < |todo| && AllFail(process(todo[k].id), maxRetries)
    ensures var written := WrittenBy(todo, process, maxRetries, skipErrors);
            if skipErrors
            then
              && k < |written|
              && written[k] == Output(todo[k].id,
                                      Some(GaveUp(maxRetries, AttemptAt(process(todo[k].id), maxRetries).error)))
            else |written| <= k
    decreases k
  {
    var x := todo[0];
    if k == 0 {
      AllFailIsProcessed(x, process(x.id), maxRetries, skipErrors, 0);
    } else {
      if skipErrors { SkippingReturns(x, process(x.id), maxRetries, 0); }
      assert forall i :: 0 <= i < |todo| - 1 ==> Ids(todo[1..])[i] == Ids(todo)[i + 1];
      LineOfFailing(todo[1..], process, maxRetries, skipErrors, k - 1);
    }
  }

  // ----- exactly once -----

  lemma {:induction false} CountOfDistinct<T>(xs: seq<T>, x: T)
    requires AreDistinct(xs)
    ensures multiset(xs)[x] == if x in xs then 1 else 0
  {
    if xs != [] {
      var n := |xs| - 1;
      assert xs == xs[..n] + [xs[n]];
      CountOfDistinct(xs[..n], x);
      assert multiset(xs) == multiset(xs[..n]) + multiset{xs[n]};
      assert xs[n] !in xs[..n];
    }
  }

  lemma RemainingIds(selected: seq<Instance>, file: seq<string>)
    requires AreDistinct(Ids(selected))
    ensures AreDistinct(Ids(Remaining(selected, file)))
    ensures forall id :: id in Ids(Remaining(selected, file)) <==> id in Ids(selected) && id !in file
  {
    var left := Remaining(selected, file);
    FilteredKeepsDistinct(selected, (x: Instance) => x.id !in file);
    FilteredMembers(selected, (x: Instance) => x.id !in file);
    forall id | id in Ids(left) ensures id in Ids(selected) && id !in file {
      var i :| 0 <= i < |left| && Ids(left)[i] == id;
      assert left[i] in selected;
      var j :| 0 <= j < |selected| && selected[j] == left[i];
      assert Ids(selected)[j] == id;
    }
    forall id | id in Ids(selected) && id !in file ensures id in Ids(left) {
      var j :| 0 <= j < |selected| && Ids(selected)[j] == id;
      assert selected[j] in left;
      var i :| 0 <= i < |left| && left[i] == selected[j];
      assert Ids(left)[i] == id;
    }
  }

  /** How often an id stands in the file after one more run. */
  lemma RunWritesOnlyMissing(selected: seq<Instance>, file: seq<string>, written: seq<string>, id: string)
    requires AreDistinct(Ids(selected)) && IsRun(Remaining(selected, file), written)
    ensures multiset(file + written)[id] == multiset(file)[id] + (if id in written then 1 else 0)
    ensures id in written ==> id in Ids(selected) && multiset(file)[id] == 0
  {
    RemainingIds(selected, file);
    CountOfDistinct(written, id);
    assert multiset(file + written) == multiset(file) + multiset(written);
  }

  /** Over any series of runs no selected instance is written twice: each id stands in the file as often
      as before, or once if it was missing, and only selected ids are added. */
  lemma {:induction false} NothingIsWrittenTwice(selected: seq<Instance>, file: seq<string>, runs: seq<seq<string>>,
                                                 id: string)
    requires AreDistinct(Ids(selected)) && IsSeries(selected, file, runs)
    ensures var after := multiset(After(file, runs))[id]; var before := multiset(file)[id];
            after == before || (before == 0 && after == 1 && id in Ids(selected))
    decreases |runs|
  {
    if runs != [] {
      RunWritesOnlyMissing(selected, file, runs[0], id);
      NothingIsWrittenTwice(selected, file + runs[0], runs[1..], id);
    }
  }

  lemma {:induction false} SeriesSplits(selected: seq<Instance>, file: seq<string>, runs: seq<seq<string>>,
                                        last: seq<string>)
    requires IsSeries(selected, file, runs + [last])
    ensures IsSeries(selected, file, runs) && IsRun(Remaining(selected, After(file, runs)), last)
    ensures After(file, runs + [last]) == After(file, runs) + last
    decreases |runs|
  {
    if runs == [] {
      assert (runs + [last])[1..] == [];
    } else {
      assert (runs + [last])[0] == runs[0] && (runs + [last])[1..] == runs[1..] + [last];
      SeriesSplits(selected, file + runs[0], runs[1..], last);
    }
  }

  /** Exactly once: after any series of runs, cut off anywhere, and a last one that completes, every
      selected instance stands in an initially empty file exactly once, and nothing else does. */
  lemma ResumeIsExactlyOnce(selected: seq<Instance>, runs: seq<seq<string>>, last: seq<string>)
    requires AreDistinct(Ids(selected)) && IsSeries(selected, [], runs + [last])
    requires IsComplete(Remaining(selected, After([], runs)), last)
    ensures multiset(After([], runs + [last])) == multiset(Ids(selected))
  {
    SeriesSplits(selected, [], runs, last);
    var file := After([], runs);
    RemainingIds(selected, file);
    forall id ensures multiset(After([], runs + [last]))[id] == multiset(Ids(selected))[id] {
      NothingIsWrittenTwice(selected, [], runs, id);
      RunWritesOnlyMissing(selected, file, last, id);
      CountOfDistinct(Ids(selected), id);
      if multiset(file)[id] > 0 {
        assert id in file;
      }
    }
  }

  /** So it is for the instances any one set of arguments selects from a dataset with distinct ids. */
  lemma RestartsAreExactlyOnce(a: Arguments, d: seq<Instance>, runs: seq<seq<string>>, last: seq<string>)
    requires AreDistinct(Ids(d)) && IsSampler(a.sample) && (a.filter.Some? ==> KeepsDistinct(a.filter.value))
    requires IsSeries(Selected(a, d), [], runs + [last])
    requires IsComplete(Remaining(Selected(a, d), After([], runs)), last)
    ensures multiset(After([], runs + [last])) == multiset(Ids(Selected(a, d)))
  {
    SelectionIsDistinct(a, d);
    ResumeIsExactlyOnce(Selected(a, d), runs, last);
  }

  /** An instance whose attempts all fail is run again if and only if errors are not skipped: the line
      written for a skipped error counts as finished. */
  lemma FailingIsRunAgainExactlyWhen(selected: seq<Instance>, file: seq<string>, process: Processing,
                                     maxRetries: int, skipErrors: bool, x: Instance)
    requires AreDistinct(Ids(selected)) && CarriesIds(process) && maxRetries >= 0
    requires x in Remaining(selected, file) && AllFail(process(x.id), maxRetries)
    ensures var written := WrittenBy(Remaining(selected, file), process, maxRetries, skipErrors);
            x in Remaining(selected, file + LineIds(written)) <==> !skipErrors
  {
    var todo := Remaining(selected, file);
    var written := WrittenBy(todo, process, maxRetries, skipErrors);
    var k :| 0 <= k < |todo| && todo[k] == x;
    RemainingIds(selected, file);
    LineOfFailing(todo, process, maxRetries, skipErrors, k);
    WrittenIsPrefix(todo, process, maxRetries, skipErrors);
    FilteredMembers(selected, (y: Instance) => y.id !in file);
    FilteredMembers(selected, (y: Instance) => y.id !in file + LineIds(written));
    if skipErrors {
      assert LineIds(written)[k] == x.id;
    } else {
      forall i | 0 <= i < |written| ensures LineIds(written)[i] != x.id {
        assert Ids(todo)[i] != Ids(todo)[k];
      }
    }
  }

  /** One instance whose attempts always fail, with errors skipped: its line records the error, and a run
      after the cause is fixed has nothing to do. */
  lemma SkippedErrorIsNotRetried(x: Instance, fixed: Processing)
    ensures var failing: Processing := _ => (_, _) => Failure(false, "broken");
            var written := WrittenBy([x], failing, 5, true);
            && written == [Output(x.id, Some("Maximum retries (5) reached: broken"))]
            && Remaining([x], LineIds(written)) == []
            && WrittenBy(Remaining([x], LineIds(written)), fixed, 5, true) == []
  {
    var failing: Processing := _ => (_, _) => Failure(false, "broken");
    AllFailIsProcessed(x, failing(x.id), 5, true, 0);
    var written := WrittenBy([x], failing, 5, true);
    assert AttemptAt(failing(x.id), 5) == Failure(false, "broken");
    assert WrittenBy([x][1..], failing, 5, true) == [] && [x][0] == x;
    assert Decimal(5) == "5" && GaveUp(5, "broken") == "Maximum retries (5) reached: broken";
    assert written == [Output(x.id, Some(GaveUp(5, "broken")))] + [];
    assert LineIds(written)[0] == x.id;
    FilteredOne(x, (y: Instance) => y.id !in LineIds(written));
  }

  /** Once a series has completed, another run has nothing to do. */
  lemma CompletedLeavesNothing(selected: seq<Instance>, file: seq<string>, written: seq<string>)
    requires AreDistinct(Ids(selected)) && IsRun(Remaining(selected, file), written)
               && IsComplete(Remaining(selected, file), written)
    ensures Remaining(selected, file + written) == []
  {
    var left := Ids(Remaining(selected, file + written));
    assert left != [] ==> left[0] in left;
    RemainingIds(selected, file);
    RemainingIds(selected, file + written);
  }
}
