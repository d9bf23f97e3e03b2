/** The loops the stuck detector looks for, as functions of the history. */
module StuckPatterns {
  import opened Util

  datatype Source = Agent | User | Environment

  /** What event equality compares; `rest` stands for the fields no check looks at. */
  datatype Content =
    | Message(text: string, rest: string)
    | IPythonRun(code: string, rest: string)
    | NullAction
    | OtherAction(rest: string)
    // observations
    | CmdOutput(command: string, exitCode: int, rest: string)
    | IPythonOutput(output: string, rest: string)
    | ErrorOutput(rest: string)
    | Condensation(rest: string)
    | NullObservation(rest: string)
    | OtherObservation(rest: string)

  datatype Event = Event(content: Content, source: Source, id: int)

  predicate IsAction(e: Event) {
    e.content.Message? || e.content.IPythonRun? || e.content.NullAction? || e.content.OtherAction?
  }

  predicate IsObservation(e: Event) {
    !IsAction(e)
  }

  predicate IsUserMessage(e: Event) {
    e.content.Message? && e.source == User
  }

  predicate IsAgentMessage(e: Event) {
    e.content.Message? && e.source == Agent
  }

  predicate IsCondensation(e: Event) {
    e.content.Condensation?
  }

  predicate IsRelevant(e: Event) {
    !IsUserMessage(e) && !e.content.NullAction? && !e.content.NullObservation?
  }

  predicate IsFilteredOut(e: Event) {
    !IsRelevant(e)
  }

  // ----- the equality that ignores process ids and thoughts -----

  predicate Contains(s: string, part: string) {
    part <= s || (s != "" && Contains(s[1..], part))
  }

  function Lines(s: string): (ls: seq<string>)
    ensures |ls| > 0
  {
    if s == "" then [""]
    else
      var ls := Lines(s[1..]);
      if s[0] == '\n' then [""] + ls else [[s[0]] + ls[0]] + ls[1..]
  }

  function FirstThree(lines: seq<string>): seq<string> {
    if |lines| <= 3 then lines else lines[..3]
  }

  const EDIT := "edit_file_by_replace("

  predicate IsEdit(e: Event) {
    e.content.IPythonRun? && Contains(e.content.code, EDIT)
  }

  predicate EqNoPid(a: Event, b: Event) {
    if IsEdit(a) && IsEdit(b) then
      |Lines(a.content.code)| > 2 && FirstThree(Lines(a.content.code)) == FirstThree(Lines(b.content.code))
    else if a.content.CmdOutput? && b.content.CmdOutput? then
      a.content.command == b.content.command && a.content.exitCode == b.content.exitCode
    else a.content == b.content
  }

  /** Every event of `es` compares equal to the first one, the first one included. */
  predicate AllLikeFirst(es: seq<Event>) {
    es != [] ==> forall i :: 0 <= i < |es| ==> EqNoPid(es[0], es[i])
  }

  // ----- the part of the history that is looked at -----

  /** The position after the last user message. */
  function AfterLastUserMessage(h: seq<Event>): (n: nat)
    ensures n <= |h|
    ensures n > 0 ==> IsUserMessage(h[n - 1])
    ensures forall i :: n <= i < |h| ==> !IsUserMessage(h[i])
  {
    if h == [] then 0 else if IsUserMessage(h[|h| - 1]) then |h| else AfterLastUserMessage(h[..|h| - 1])
  }

  lemma {:induction false} AfterLastUserMessageStays(h: seq<Event>, es: seq<Event>)
    requires forall i :: 0 <= i < |es| ==> !IsUserMessage(es[i])
    ensures AfterLastUserMessage(h + es) == AfterLastUserMessage(h)
  {
    if es == [] {
      assert h + es == h;
    } else {
      var n := |es| - 1;
      assert (h + es)[..|h + es| - 1] == h + es[..n] && (h + es)[|h + es| - 1] == es[n];
      AfterLastUserMessageStays(h, es[..n]);
    }
  }

  function Offset(h: seq<Event>, headless: bool): (n: nat)
    ensures n <= |h|
  {
    if headless then 0 else AfterLastUserMessage(h)
  }

  function Looked(h: seq<Event>, headless: bool): seq<Event> {
    Filtered(h[Offset(h, headless)..], IsRelevant)
  }

  // ----- the five scenarios, over the filtered history -----

  datatype LoopType = RepeatedPair | RepeatedError | Monologue | Pattern | ContextWindow

  datatype Analysis = Analysis(loopType: LoopType, times: nat, start: nat)

  /** The position of the first event with the content of `e`. */
  function FirstEqual(f: seq<Event>, e: Event): (n: nat)
    requires e in f
    ensures n < |f| && f[n].content == e.content
    ensures forall i :: 0 <= i < n ==> f[i].content != e.content
  {
    if f[0].content == e.content then 0 else 1 + FirstEqual(f[1..], e)
  }

  /** The loop starts where the earliest of the last `k` actions first stood. */
  function StartOf(f: seq<Event>, k: nat): (n: nat)
    requires Window(f, IsAction, k) != []
    ensures n < |f|
    ensures f[n].content == Window(f, IsAction, k)[|Window(f, IsAction, k)| - 1].content
    ensures forall i :: 0 <= i < n ==> f[i].content != Window(f, IsAction, k)[|Window(f, IsAction, k)| - 1].content
  {
    WindowIsFrom(f, IsAction, k);
    FirstEqual(f, Window(f, IsAction, k)[|Window(f, IsAction, k)| - 1])
  }

  function RepeatedPairAt(f: seq<Event>): (r: Option<Analysis>)
    ensures r.Some? ==> r.value.loopType == RepeatedPair
    ensures r.Some? ==> Window(f, IsAction, 4) != [] && r.value.start == StartOf(f, 4)
  {
    var actions, observations := Window(f, IsAction, 4), Window(f, IsObservation, 4);
    if |actions| == 4 && |observations| == 4 && AllLikeFirst(actions) && AllLikeFirst(observations)
    then Some(Analysis(RepeatedPair, 4, StartOf(f, 4)))
    else None
  }

  /** `syntaxLoop` says whether three cell outputs show the same syntax error. */
  predicate AreErrors(observations: seq<Event>, syntaxLoop: seq<Event> -> bool) {
    || (forall i :: 0 <= i < |observations| ==> observations[i].content.ErrorOutput?)
    || ((forall i :: 0 <= i < |observations| ==> observations[i].content.IPythonOutput?) && syntaxLoop(observations))
  }

  function RepeatedErrorAt(f: seq<Event>, syntaxLoop: seq<Event> -> bool): (r: Option<Analysis>)
    ensures r.Some? ==> r.value.loopType == RepeatedError
    ensures r.Some? ==> Window(f, IsAction, 4) != [] && r.value.start == StartOf(f, 4)
  {
    var actions, observations := Window(f, IsAction, 4), Window(f, IsObservation, 4);
    if |actions| >= 3 && |observations| >= 3 && AllLikeFirst(actions[..3]) && AreErrors(observations[..3], syntaxLoop)
    then Some(Analysis(RepeatedError, 3, StartOf(f, 4)))
    else None
  }

  function MonologueAt(f: seq<Event>): (r: Option<Analysis>)
    ensures r.Some? ==> r.value.loopType == Monologue
    ensures r.Some? ==> r.value.start < |f| && IsAgentMessage(f[r.value.start])
  {
    var m := Indices(f, IsAgentMessage);
    if |m| < 3 then None
    else
      var i, j, k := m[|m| - 3], m[|m| - 2], m[|m| - 1];
      if && f[i].content == f[j].content && f[i].content == f[k].content
         && forall q :: i < q < k ==> !IsObservation(f[q])
      then Some(Analysis(Monologue, 3, i))
      else None
  }

  /** Every other event of six compares equal. */
  predicate Alternates(es: seq<Event>)
    requires |es| == 6
  {
    EqNoPid(es[0], es[2]) && EqNoPid(es[0], es[4]) && EqNoPid(es[1], es[3]) && EqNoPid(es[1], es[5])
  }

  function PatternAt(f: seq<Event>): (r: Option<Analysis>)
    ensures r.Some? ==> r.value.loopType == Pattern
    ensures r.Some? ==> Window(f, IsAction, 6) != [] && r.value.start == StartOf(f, 6)
  {
    var actions, observations := Window(f, IsAction, 6), Window(f, IsObservation, 6);
    if |actions| == 6 && |observations| == 6 && Alternates(actions) && Alternates(observations)
    then Some(Analysis(Pattern, 3, StartOf(f, 6)))
    else None
  }

  predicate ArePositions(f: seq<Event>, c: seq<nat>) {
    forall i :: 0 <= i < |c| ==> c[i] < |f|
  }

  /** Nothing but condensations between the positions `c[i]` and `c[i + 1]`. */
  predicate IsTight(f: seq<Event>, c: seq<nat>, i: nat)
    requires ArePositions(f, c) && i + 1 < |c|
  {
    forall q :: c[i] < q < c[i + 1] ==> IsCondensation(f[q])
  }

  /** The first tight pair of `c` from index `i` on. */
  function FirstTight(f: seq<Event>, c: seq<nat>, i: nat): (n: Option<nat>)
    requires ArePositions(f, c)
    ensures n.Some? ==> i <= n.value && n.value + 1 < |c| && IsTight(f, c, n.value)
    ensures n.Some? ==> forall j :: i <= j < n.value ==> !IsTight(f, c, j)
    ensures n.None? ==> forall j :: i <= j && j + 1 < |c| ==> !IsTight(f, c, j)
    decreases |c| - i
  {
    if i + 1 >= |c| then None
    else if IsTight(f, c, i) then Some(i)
    else FirstTight(f, c, i + 1)
  }

  /** Looks at the last ten condensations only. */
  function ContextWindowAt(f: seq<Event>): (r: Option<Analysis>)
    ensures r.Some? ==> r.value.loopType == ContextWindow
    ensures r.Some? ==> r.value.start < |f| && |Indices(f, IsCondensation)| >= 10
  {
    var c := Indices(f, IsCondensation);
    if |c| < 10 then None
    else
      var n := FirstTight(f, c, |c| - 10);
      if n.Some? then Some(Analysis(ContextWindow, 2, c[n.value])) else None
  }

  /** What is_stuck finds in the filtered history: the first scenario that applies. */
  function Found(f: seq<Event>, syntaxLoop: seq<Event> -> bool): Option<Analysis> {
    if |f| < 3 then None
    else if RepeatedPairAt(f).Some? then RepeatedPairAt(f)
    else if RepeatedErrorAt(f, syntaxLoop).Some? then RepeatedErrorAt(f, syntaxLoop)
    else if MonologueAt(f).Some? then MonologueAt(f)
    else if |f| >= 6 && PatternAt(f).Some? then PatternAt(f)
    else if |f| >= 10 then ContextWindowAt(f)
    else None
  }

  function Moved(a: Option<Analysis>, offset: nat): Option<Analysis> {
    if a.Some? then Some(a.value.(start := a.value.start + offset)) else None
  }

  /** What is_stuck reports: loop_start_idx is a filtered position plus the offset of the slice. */
  function Report(h: seq<Event>, headless: bool, syntaxLoop: seq<Event> -> bool): Option<Analysis> {
    Moved(Found(Looked(h, headless), syntaxLoop), Offset(h, headless))
  }

  /** The analysis is_stuck leaves: an earlier one stays only if there is too little to look at. */
  function Analysed(earlier: Option<Analysis>, h: seq<Event>, headless: bool,
                    syntaxLoop: seq<Event> -> bool): Option<Analysis> {
    if |Looked(h, headless)| < 3 then earlier else Report(h, headless, syntaxLoop)
  }
}
