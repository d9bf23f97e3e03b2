/** Loop recovery over whole runs: what the stuck detector tells the controller, how long an analysis
    lasts, and what a further recovery cuts. */
module ControllerRecovery {
  import opened Util
  import opened Controller
  import opened ControllerTheorems
  import P = StuckPatterns
  import StuckTheorems

  // ----- the detector over the history of the controller -----

  /** `read` gives what event equality compares, `syntaxLoop` is as in StuckPatterns. */
  datatype Detector = Detector(read: Event -> P.Content, syntaxLoop: seq<P.Event> -> bool, headless: bool)

  /** The kinds of event the detector filters by are read as such. */
  ghost predicate KeepsKinds(d: Detector) {
    forall e: Event ::
      && (d.read(e).Message? <==> e.body.Message?)
      && (d.read(e).NullAction? <==> e.body.NullAction?)
      && (d.read(e).NullObservation? <==> e.body.NullObservation?)
      && (P.IsObservation(P.Event(d.read(e), P.Agent, 0)) <==> IsObservation(e))
  }

  function Shown(d: Detector, e: Event, id: nat): P.Event {
    var source := match e.source case Agent => P.Agent case User => P.User case Environment => P.Environment;
    P.Event(d.read(e), source, id)
  }

  /** What every state of a run satisfies. */
  ghost predicate IsSound(s: State) {
    PendingRefersToIssue(s) && HistoryOk(s)
  }

  ghost function HistoryShown(d: Detector, s: State): (h: seq<P.Event>)
    requires HistoryOk(s)
    ensures |h| == |s.history|
  {
    seq(|s.history|, k requires 0 <= k < |s.history| =>
      (assert s.history[k] in s.history; Shown(d, s.stream[s.history[k]], s.history[k])))
  }

  /** How many events the detector has to look at. */
  ghost function LookedAt(d: Detector, s: State): nat
    requires HistoryOk(s)
  {
    |P.Looked(HistoryShown(d, s), d.headless)|
  }

  ghost function ReportIn(d: Detector, s: State): Option<P.Analysis>
    requires HistoryOk(s)
  {
    P.Report(HistoryShown(d, s), d.headless, d.syntaxLoop)
  }

  /** The controller uses only the start of an analysis. */
  function StartIn(a: Option<P.Analysis>): Option<nat> {
    if a.Some? then Some(a.value.start) else None
  }

  /** The outcome of the step is one the detector allows. */
  ghost predicate Tells(d: Detector, s: State, o: Oracle)
    requires HistoryOk(s)
  {
    && (o.outcome.Loop? <==> ReportIn(d, s).Some?)
    && (o.outcome.Loop? ==> o.outcome.start == ReportIn(d, s).value.start)
    && (!o.outcome.Loop? ==> (o.cleared <==> LookedAt(d, s) >= 3))
  }

  predicate StepsFrom(s: State) {
    s.agentState == Running && s.pending.None?
  }

  lemma StepAnalysis(c: Config, s: State, o: Oracle)
    requires PendingRefersToIssue(s)
    ensures Step(c, s, o).analysis
            == if !StepsFrom(s) then s.analysis
               else if o.outcome.Loop? then Some(o.outcome.start) else if o.cleared then None else s.analysis
  {
    hide SetState;
    var t := s.(analysis := if o.outcome.Loop? then Some(o.outcome.start) else if o.cleared then None else s.analysis);
    SetStateKeepsHistory(t, Error);
    SetStateKeepsHistory(t, RateLimited);
    SetStateKeepsHistory(t, AwaitingUserConfirmation);
  }

  /** A step that goes by the detector leaves the analysis is_stuck leaves. */
  lemma StepFollowsDetector(d: Detector, c: Config, s: State, o: Oracle, earlier: Option<P.Analysis>)
    requires IsSound(s) && StepsFrom(s) && Tells(d, s, o) && s.analysis == StartIn(earlier)
    ensures Step(c, s, o).analysis
            == StartIn(P.Analysed(earlier, HistoryShown(d, s), d.headless, d.syntaxLoop))
  {
    hide Step;
    StepAnalysis(c, s, o);
  }

  // ----- runs that go by the detector -----

  lemma SetStateGoesOn(s: State, to: AgentState)
    requires PendingRefersToIssue(s)
    ensures s.stream <= SetState(s, to).stream
  {
  }

  lemma MessageGoesOn(s: State, text: string, waits: bool, source: Source)
    requires PendingRefersToIssue(s)
    ensures s.stream <= HandleMessage(s, text, waits, source).stream
    ensures HandleMessage(s, text, waits, source).analysis == s.analysis
  {
    hide SetState;
    var t := EmitPending(Displace(s), Plain(Recall(text), User), false);
    SetStateGoesOn(t, Running);
    SetStateKeepsHistory(t, Running);
    SetStateGoesOn(s, AwaitingUserInput);
    SetStateKeepsHistory(s, AwaitingUserInput);
  }

  lemma RecoveryGoesOn(s: State, point: nat)
    requires PendingRefersToIssue(s)
    ensures s.stream <= PerformRecovery(s, point).stream && PerformRecovery(s, point).analysis == s.analysis
    ensures s.stream <= Restart(s, point).stream && Restart(s, point).analysis == s.analysis
  {
    hide SetState, HandleMessage;
    var t := Truncate(s, point);
    SetStateGoesOn(t, AwaitingUserInput);
    SetStateKeepsHistory(t, AwaitingUserInput);
    SetStateGoesOn(t, Running);
    SetStateKeepsHistory(t, Running);
    var last := LastUserMessage(s, |s.history|);
    if last.Some? {
      MessageGoesOn(Emit(SetState(t, Running), Plain(LoopDetection, Environment)), last.value, false, User);
    }
  }

  /** Handling an event neither takes anything out of the stream nor touches the analysis. */
  lemma HandleGoesOn(s: State, i: nat)
    requires PendingRefersToIssue(s) && i < |s.stream|
    ensures s.stream <= Handle(s, i).stream && Handle(s, i).analysis == s.analysis
  {
    hide SetState, HandleMessage, PerformRecovery, Restart;
    var e := s.stream[i];
    var t := if InHistory(e) then s.(history := s.history + [i]) else s;
    if IsObservation(e) {
      forall to | to == Running || to == AwaitingUserInput
        ensures s.stream <= SetState(t.(pending := None), to).stream
        ensures SetState(t.(pending := None), to).analysis == s.analysis
      {
        SetStateGoesOn(t.(pending := None), to);
        SetStateKeepsHistory(t.(pending := None), to);
      }
    } else {
      ActionGoesOn(t, e);
    }
  }

  lemma ActionGoesOn(s: State, e: Event)
    requires PendingRefersToIssue(s)
    ensures s.stream <= HandleAction(s, e).stream && HandleAction(s, e).analysis == s.analysis
  {
    hide SetState, HandleMessage, PerformRecovery, Restart;
    match e.body
    case ChangeState(to) => SetStateGoesOn(s, to); SetStateKeepsHistory(s, to);
    case Message(text, waits) => MessageGoesOn(s, text, waits, e.source);
    case Finish => SetStateGoesOn(s, Finished); SetStateKeepsHistory(s, Finished);
    case RejectTask => SetStateGoesOn(s, Rejected); SetStateKeepsHistory(s, Rejected);
    case LoopRecovery(_) =>
      SetStateGoesOn(s, Stopped);
      SetStateKeepsHistory(s, Stopped);
      if s.analysis.Some? { RecoveryGoesOn(s, s.analysis.value); }
    case _ =>
  }

  lemma StepGoesOn(c: Config, s: State, o: Oracle)
    requires PendingRefersToIssue(s)
    ensures s.stream <= Step(c, s, o).stream
  {
    hide SetState;
    var t := s.(analysis := if o.outcome.Loop? then Some(o.outcome.start) else if o.cleared then None else s.analysis);
    SetStateGoesOn(t, Error);
    SetStateGoesOn(t, RateLimited);
    SetStateGoesOn(t, AwaitingUserConfirmation);
  }

  lemma HandleKeepsSound(s: State, i: nat)
    requires IsSound(s) && i < |s.stream|
    ensures IsSound(Handle(s, i))
  {
    HandleGoesOn(s, i);
    HandleHistory(s, i);
    hide Handle;
    var grown := if InHistory(s.stream[i]) then s.history + [i] else s.history;
    var t := Handle(s, i);
    assert t.history <= grown;
    forall h | h in t.history ensures h < |t.stream| {
      var k :| 0 <= k < |t.history| && t.history[k] == h;
      assert h == grown[k] && (k < |s.history| ==> s.history[k] in s.history);
    }
  }

  lemma LabelGoesOn(c: Config, s: State, l: Label)
    requires IsSound(s) && Enabled(s, l)
    ensures IsSound(Apply(c, s, l)) && s.stream <= Apply(c, s, l).stream
  {
    hide Handle, Step, SetState;
    match l
    case Others(_) =>
    case Deliver(i, o) =>
      HandleKeepsSound(s, i);
      HandleGoesOn(s, i);
      StepGoesOn(c, Handle(s, i), o);
      StepKeepsHistory(c, Handle(s, i), o);
    case StepNow(o) => StepGoesOn(c, s, o); StepKeepsHistory(c, s, o);
    case ExternalState(to) => SetStateGoesOn(s, to); SetStateKeepsHistory(s, to);
    case Close => SetStateGoesOn(s, Stopped); SetStateKeepsHistory(s, Stopped);
  }

  /** The state in which a label makes the agent step, if it does. */
  ghost function StepState(s: State, l: Label): (r: Option<State>)
    requires IsSound(s) && Enabled(s, l)
    ensures r.Some? ==> IsSound(r.value) && StepsFrom(r.value) && (l.Deliver? || l.StepNow?)
  {
    match l
    case StepNow(_) => if StepsFrom(s) then Some(s) else None
    case Deliver(i, _) =>
      HandleKeepsSound(s, i);
      var t := Handle(s, i);
      if !s.stream[i].hidden && ShouldStep(t.agentState, s.stream[i]) && StepsFrom(t) then Some(t) else None
    case _ => None
  }

  lemma LabelAnalysis(c: Config, s: State, l: Label)
    requires IsSound(s) && Enabled(s, l)
    ensures StepState(s, l).None? ==> Apply(c, s, l).analysis == s.analysis
    ensures StepState(s, l).Some? ==>
              && StepState(s, l).value.analysis == s.analysis
              && Apply(c, s, l).analysis == Step(c, StepState(s, l).value, l.o).analysis
  {
    hide Handle, Step, SetState;
    match l
    case Others(_) =>
    case Deliver(i, o) =>
      HandleGoesOn(s, i);
      StepAnalysis(c, Handle(s, i), o);
    case StepNow(o) => StepAnalysis(c, s, o);
    case ExternalState(to) => SetStateKeepsHistory(s, to);
    case Close => SetStateKeepsHistory(s, Stopped);
  }

  /** In every step of the run the detector is asked about the history there is then. */
  ghost predicate GoesByDetector(d: Detector, c: Config, s: State, ls: seq<Label>)
    requires IsSound(s) && PossibleRun(c, s, ls)
    decreases |ls|
  {
    ls == []
    || (LabelGoesOn(c, s, ls[0]);
       && (StepState(s, ls[0]).Some? ==> Tells(d, StepState(s, ls[0]).value, ls[0].o))
       && GoesByDetector(d, c, Apply(c, s, ls[0]), ls[1..]))
  }

  /** Whenever the detector is asked it has fewer than three events to look at, or reports the start `p`. */
  ghost predicate NothingNewFound(d: Detector, c: Config, s: State, ls: seq<Label>, p: nat)
    requires IsSound(s) && PossibleRun(c, s, ls)
    decreases |ls|
  {
    ls == []
    || (LabelGoesOn(c, s, ls[0]);
       && (StepState(s, ls[0]).Some? ==>
             var t := StepState(s, ls[0]).value; LookedAt(d, t) < 3 || StartIn(ReportIn(d, t)) == Some(p))
       && NothingNewFound(d, c, Apply(c, s, ls[0]), ls[1..], p))
  }

  /** An analysis outlasts one label exactly when the detector is not asked, has fewer than three events
      to look at, or reports the same start. */
  lemma AnalysisOutlastsLabel(d: Detector, c: Config, s: State, l: Label, p: nat)
    requires IsSound(s) && Enabled(s, l) && s.analysis == Some(p)
    requires StepState(s, l).Some? ==> Tells(d, StepState(s, l).value, l.o)
    ensures Apply(c, s, l).analysis == Some(p)
            <==> (StepState(s, l).Some? ==>
                    var t := StepState(s, l).value; LookedAt(d, t) < 3 || StartIn(ReportIn(d, t)) == Some(p))
  {
    hide Apply, Step, StepState;
    LabelAnalysis(c, s, l);
    if StepState(s, l).Some? {
      StepAnalysis(c, StepState(s, l).value, l.o);
    }
  }

  /** An analysis lasts exactly as long as the detector finds nothing new: without another report, as long
      as it has fewer than three events to look at whenever it is asked. */
  lemma {:induction false} AnalysisStaysExactlyWhen(d: Detector, c: Config, s: State, ls: seq<Label>, p: nat)
    requires IsSound(s) && PossibleRun(c, s, ls) && GoesByDetector(d, c, s, ls) && s.analysis == Some(p)
    ensures AnalysisStays(c, s, ls, p) <==> NothingNewFound(d, c, s, ls, p)
    decreases |ls|
  {
    hide Apply, StepState, Tells, LookedAt, ReportIn;
    if ls != [] {
      var t := Apply(c, s, ls[0]);
      LabelGoesOn(c, s, ls[0]);
      AnalysisOutlastsLabel(d, c, s, ls[0], p);
      if t.analysis == Some(p) {
        AnalysisStaysExactlyWhen(d, c, t, ls[1..], p);
      }
    }
  }

  // ----- what a further recovery cuts -----

  /** One of the two recoveries that truncate the history. */
  predicate Recovers(e: Event) {
    e.body.LoopRecovery? && (e.body.option == 1 || e.body.option == 2)
  }

  /** The label delivers the event at position `i` of the stream, and that goes into the history. */
  predicate AddsToHistory(l: Label, all: seq<Event>) {
    l.Deliver? && l.i < |all| && InHistory(all[l.i])
  }

  predicate DeliversRecovery(l: Label, all: seq<Event>) {
    AddsToHistory(l, all) && Recovers(all[l.i])
  }

  /** The positions of the events that went into the history after the last recovery. */
  function SinceLast(ls: seq<Label>, all: seq<Event>): seq<nat>
    decreases |ls|
  {
    if ls == [] then []
    else
      var n := |ls| - 1;
      if DeliversRecovery(ls[n], all) then []
      else if AddsToHistory(ls[n], all) then SinceLast(ls[..n], all) + [ls[n].i]
      else SinceLast(ls[..n], all)
  }

  /** Whatever goes into the history is, or is followed by, a recovery. */
  ghost predicate EndsInRecovery(ls: seq<Label>, all: seq<Event>) {
    forall k :: 0 <= k < |ls| && AddsToHistory(ls[k], all) ==>
      exists m :: k <= m < |ls| && DeliversRecovery(ls[m], all)
  }

  lemma {:induction false} NothingSinceLastExactlyWhen(ls: seq<Label>, all: seq<Event>)
    ensures SinceLast(ls, all) == [] <==> EndsInRecovery(ls, all)
    decreases |ls|
  {
    hide AddsToHistory, DeliversRecovery;
    if ls != [] {
      var n := |ls| - 1;
      NothingSinceLastExactlyWhen(ls[..n], all);
      if DeliversRecovery(ls[n], all) {
      } else if AddsToHistory(ls[n], all) {
      } else if EndsInRecovery(ls[..n], all) {
        forall k | 0 <= k < |ls| && AddsToHistory(ls[k], all)
          ensures exists m :: k <= m < |ls| && DeliversRecovery(ls[m], all)
        {
          assert ls[..n][k] == ls[k];
          var m :| k <= m < n && DeliversRecovery(ls[..n][m], all);
          assert DeliversRecovery(ls[m], all);
        }
      } else {
        var k :| 0 <= k < n && AddsToHistory(ls[..n][k], all)
                 && forall m :: k <= m < n ==> !DeliversRecovery(ls[..n][m], all);
        assert forall m :: k <= m < n ==> ls[..n][m] == ls[m];
        assert AddsToHistory(ls[k], all) && forall m :: k <= m < |ls| ==> !DeliversRecovery(ls[m], all);
      }
    }
  }

  lemma {:induction false} SplitLast(c: Config, s: State, ls: seq<Label>, p: nat)
    requires IsSound(s) && PossibleRun(c, s, ls) && ls != [] && AnalysisStays(c, s, ls, p)
    ensures var n := |ls| - 1;
            && PossibleRun(c, s, ls[..n]) && AnalysisStays(c, s, ls[..n], p) && IsSound(Final(c, s, ls[..n]))
            && Final(c, s, ls[..n]).analysis == Some(p)
            && Enabled(Final(c, s, ls[..n]), ls[n]) && Final(c, s, ls) == Apply(c, Final(c, s, ls[..n]), ls[n])
    decreases |ls|
  {
    hide Apply;
    LabelGoesOn(c, s, ls[0]);
    if |ls| > 1 {
      SplitLast(c, Apply(c, s, ls[0]), ls[1..], p);
      assert ls[1..][..|ls| - 2] == ls[..|ls| - 1][1..];
    }
  }

  /** What one label does to a history that starts with `p` events kept by the analysis. */
  lemma LabelHistory(c: Config, s: State, l: Label, p: nat, all: seq<Event>)
    requires IsSound(s) && Enabled(s, l) && s.analysis == Some(p) && p <= |s.history|
    requires Apply(c, s, l).stream <= all
    ensures Apply(c, s, l).history
            == if DeliversRecovery(l, all) then s.history[..p]
               else if AddsToHistory(l, all) then s.history + [l.i] else s.history
  {
    hide Handle, Step, SetState;
    LabelGoesOn(c, s, l);
    match l
    case Others(_) =>
    case Deliver(i, o) =>
      assert all[i] == s.stream[i];
      HandleHistory(s, i);
      StepKeepsHistory(c, Handle(s, i), o);
    case StepNow(o) => StepKeepsHistory(c, s, o);
    case ExternalState(to) => SetStateKeepsHistory(s, to);
    case Close => SetStateKeepsHistory(s, Stopped);
  }

  /** From a history cut at `p`, the history is always the cut one and what went into it since the last
      recovery. */
  lemma {:induction false} HistorySinceLast(c: Config, s: State, ls: seq<Label>, p: nat, all: seq<Event>)
    requires IsSound(s) && PossibleRun(c, s, ls) && AnalysisStays(c, s, ls, p) && |s.history| == p
    requires Final(c, s, ls).stream <= all
    ensures Final(c, s, ls).history == s.history + SinceLast(ls, all)
    decreases |ls|
  {
    hide Apply, PossibleRun, AnalysisStays, Recovers, InHistory;
    if ls != [] {
      var n := |ls| - 1;
      SplitLast(c, s, ls, p);
      var t := Final(c, s, ls[..n]);
      LabelGoesOn(c, t, ls[n]);
      HistorySinceLast(c, s, ls[..n], p, all);
      LabelHistory(c, t, ls[n], p, all);
      assert t.history[..p] == s.history;
    }
  }

  /** A recovery from an analysis recovered from before cuts exactly what went into the history since the
      last recovery, part of a loop or not; it cuts nothing if and only if everything that went into the
      history was, or was followed by, a recovery.  `s` is the state after the first recovery, and since
      then the detector has found nothing new. */
  lemma RecoveryCutsAllSinceTheLast(d: Detector, c: Config, s: State, ls: seq<Label>, p: nat)
    requires IsSound(s) && s.analysis == Some(p) && |s.history| == p
    requires PossibleRun(c, s, ls) && GoesByDetector(d, c, s, ls) && NothingNewFound(d, c, s, ls, p)
    ensures PendingRefersToIssue(Final(c, s, ls))
    ensures var t := Final(c, s, ls); var u := PerformRecovery(t, p);
            && t.analysis == Some(p) && u.history == s.history
            && t.history == u.history + SinceLast(ls, t.stream)
            && (u.history == t.history <==> EndsInRecovery(ls, t.stream))
  {
    hide PerformRecovery, Restart, AnalysisStays, PossibleRun, Final, SinceLast, EndsInRecovery, GoesByDetector,
      NothingNewFound;
    AnalysisStaysExactlyWhen(d, c, s, ls, p);
    StartStaysUntouched(c, s, ls, p);
    FirstRecoveryCutsFromTheStart(c, s, ls, p);
    HistorySinceLast(c, s, ls, p, Final(c, s, ls).stream);
    NothingSinceLastExactlyWhen(ls, Final(c, s, ls).stream);
  }

  // ----- a run in which a further recovery drops a new message -----

  function ByAgent(text: string): Event {
    Plain(Message(text, false), Agent)
  }

  function ByUser(text: string): Event {
    Plain(Message(text, false), User)
  }

  const RECOVER := Plain(LoopRecovery(1), User)
  const RECALLED := Plain(OtherObservation(""), Environment).(cause := Some(8))

  /** A controller with three copies of one agent message in its history. */
  function Repeating(text: string): (s: State)
    ensures IsSound(s)
  {
    State(Running, None, [ByAgent(text), ByAgent(text), ByAgent(text)], [0, 1, 2], None, false, [])
  }

  /** After the report. */
  function Reported(text: string): (s: State)
    ensures IsSound(s)
  {
    Repeating(text).(
      agentState := Error, analysis := Some(0),
      stream := Repeating(text).stream + [Plain(StateChanged(Error), Environment)])
  }

  /** After the first recovery. */
  function Recovered(text: string): (s: State)
    ensures IsSound(s) && s.history == [] && s.analysis == Some(0) && |s.stream| == 7
  {
    Reported(text).(
      agentState := AwaitingUserInput, history := [],
      stream := Reported(text).stream
                + [RECOVER, Plain(StateChanged(AwaitingUserInput), Environment), Plain(LoopDetection, Environment)])
  }

  /** After a new message of the user. */
  function Recalling(text: string, request: string): (s: State)
    ensures IsSound(s)
  {
    var recall := Plain(Recall(request), User);
    Recovered(text).(
      agentState := Running, history := [7], pending := Some(Pending(recall, 8, 0)),
      stream := Recovered(text).stream + [ByUser(request), recall, Plain(StateChanged(Running), Environment)],
      issues := [Issue(recall, [8], false, None)])
  }

  /** After the observation of its recall, on which the agent steps. */
  function Served(text: string, request: string): (s: State)
    ensures IsSound(s) && s.analysis == Some(0) && |s.stream| == 12 && s.stream[7] == ByUser(request)
    ensures s.history == [7, 10] && !s.closed
  {
    Recalling(text, request).(
      history := [7, 10], pending := None,
      stream := Recalling(text, request).stream + [RECALLED, Plain(ErrorObservation(""), Agent)])
  }

  /** The report and the first recovery. */
  function FirstRecovery(): seq<Label> {
    [StepNow(Oracle(true, Loop(0))), Others(RECOVER), Deliver(4, Oracle(false, LimitHit))]
  }

  /** A new message, the observation of its recall, and a request to recover again. */
  function SecondRequest(request: string): seq<Label> {
    [Others(ByUser(request)), Deliver(7, Oracle(false, LimitHit)), Others(RECALLED),
     Deliver(10, Oracle(false, Malformed(""))), Others(RECOVER)]
  }

  lemma ReportOfRepeating(d: Detector, text: string)
    requires KeepsKinds(d)
    ensures ReportIn(d, Repeating(text)) == Some(P.Analysis(P.Monologue, 3, 0))
  {
    var h := HistoryShown(d, Repeating(text));
    StuckTheorems.OnlyCopiesKeepAllButThree(h, d.headless, d.syntaxLoop);
  }

  lemma StepReports(d: Detector, c: Config, text: string)
    requires KeepsKinds(d)
    ensures var s := Repeating(text); var l := StepNow(Oracle(true, Loop(0)));
            && Enabled(s, l) && Apply(c, s, l) == Reported(text)
            && StepState(s, l) == Some(s) && Tells(d, s, Oracle(true, Loop(0)))
  {
    hide ReportIn, LookedAt, KeepsKinds;
    ReportOfRepeating(d, text);
  }

  lemma DeliverRecovery(c: Config, text: string)
    ensures var s := Emit(Reported(text), RECOVER); var l := Deliver(4, Oracle(false, LimitHit));
            IsSound(s) && Enabled(s, l) && Apply(c, s, l) == Recovered(text) && StepState(s, l).None?
  {
    assert Handle(Emit(Reported(text), RECOVER), 4) == Recovered(text);
  }

  lemma DeliverRequest(c: Config, text: string, request: string)
    ensures var s := Emit(Recovered(text), ByUser(request)); var l := Deliver(7, Oracle(false, LimitHit));
            IsSound(s) && Enabled(s, l) && Apply(c, s, l) == Recalling(text, request) && StepState(s, l).None?
  {
    assert Handle(Emit(Recovered(text), ByUser(request)), 7) == Recalling(text, request);
  }

  lemma DeliverRecalled(d: Detector, c: Config, text: string, request: string)
    ensures var s := Emit(Recalling(text, request), RECALLED); var l := Deliver(10, Oracle(false, Malformed("")));
            && IsSound(s) && Enabled(s, l) && Apply(c, s, l) == Served(text, request)
            && (StepState(s, l).Some? ==> Tells(d, StepState(s, l).value, l.o))
  {
    var s := Emit(Recalling(text, request), RECALLED);
    var t := Handle(s, 10);
    assert t == s.(history := [7, 10], pending := None);
  }

  lemma Begin(d: Detector, c: Config, s: State, l: Label, ls: seq<Label>)
    requires IsSound(s) && Enabled(s, l) && IsSound(Apply(c, s, l)) && PossibleRun(c, Apply(c, s, l), ls)
    requires StepState(s, l).Some? ==> Tells(d, StepState(s, l).value, l.o)
    requires GoesByDetector(d, c, Apply(c, s, l), ls)
    ensures PossibleRun(c, s, [l] + ls) && GoesByDetector(d, c, s, [l] + ls)
    ensures Final(c, s, [l] + ls) == Final(c, Apply(c, s, l), ls)
  {
    hide Apply, StepState, Enabled, Tells;
    assert ([l] + ls)[1..] == ls;
  }

  /** Events others add are always possible, and no step. */
  lemma BeginOthers(d: Detector, c: Config, s: State, e: Event, ls: seq<Label>)
    requires IsSound(s) && PossibleRun(c, Emit(s, e), ls) && GoesByDetector(d, c, Emit(s, e), ls)
    ensures PossibleRun(c, s, [Others(e)] + ls) && GoesByDetector(d, c, s, [Others(e)] + ls)
    ensures Final(c, s, [Others(e)] + ls) == Final(c, Emit(s, e), ls)
  {
    Begin(d, c, s, Others(e), ls);
  }

  lemma RecoversAgain(d: Detector, c: Config, text: string, request: string)
    ensures var s, ls := Recovered(text), SecondRequest(request);
            && PossibleRun(c, s, ls) && GoesByDetector(d, c, s, ls)
            && Final(c, s, ls) == Emit(Served(text, request), RECOVER)
  {
    hide Recovered, Recalling, Served, Apply, StepState, Enabled, Tells, Emit, ByUser;
    var s0, s2, s4 := Recovered(text), Recalling(text, request), Served(text, request);
    var l2, l4 := Deliver(7, Oracle(false, LimitHit)), Deliver(10, Oracle(false, Malformed("")));
    DeliverRequest(c, text, request);
    DeliverRecalled(d, c, text, request);
    var none: seq<Label> := [];
    EmitIsSound(s4, RECOVER);
    BeginOthers(d, c, s4, RECOVER, none);
    Begin(d, c, Emit(s2, RECALLED), l4, [Others(RECOVER)] + none);
    BeginOthers(d, c, s2, RECALLED, [l4] + ([Others(RECOVER)] + none));
    Begin(d, c, Emit(s0, ByUser(request)), l2, [Others(RECALLED)] + ([l4] + ([Others(RECOVER)] + none)));
    BeginOthers(d, c, s0, ByUser(request), [l2] + ([Others(RECALLED)] + ([l4] + ([Others(RECOVER)] + none))));
    assert [Others(ByUser(request))] + ([l2] + ([Others(RECALLED)] + ([l4] + ([Others(RECOVER)] + none))))
        == SecondRequest(request);
  }

  lemma EmitIsSound(s: State, e: Event)
    requires IsSound(s)
    ensures IsSound(Emit(s, e))
  {
  }

  lemma AgainFromTheStart(d: Detector, c: Config, text: string, ls: seq<Label>)
    requires KeepsKinds(d) && PossibleRun(c, Recovered(text), ls) && GoesByDetector(d, c, Recovered(text), ls)
    ensures var s := Repeating(text);
            && PossibleRun(c, s, FirstRecovery() + ls) && GoesByDetector(d, c, s, FirstRecovery() + ls)
            && Final(c, s, FirstRecovery() + ls) == Final(c, Recovered(text), ls)
  {
    hide Repeating, Reported, Recovered, Apply, StepState, Enabled, Emit, PossibleRun, GoesByDetector, Final, Tells,
      KeepsKinds, IsSound;
    var l1, l3 := StepNow(Oracle(true, Loop(0))), Deliver(4, Oracle(false, LimitHit));
    StepReports(d, c, text);
    DeliverRecovery(c, text);
    EmitIsSound(Reported(text), RECOVER);
    Begin(d, c, Emit(Reported(text), RECOVER), l3, ls);
    BeginOthers(d, c, Reported(text), RECOVER, [l3] + ls);
    Begin(d, c, Repeating(text), l1, [Others(RECOVER)] + ([l3] + ls));
    assert [l1] + ([Others(RECOVER)] + ([l3] + ls)) == FirstRecovery() + ls;
  }

  /** The detector reports a loop and the agent recovers from it; then a new message arrives, and before
      there are three events to look at the agent recovers again: that cuts the message and what followed
      it, none of which was part of a loop. */
  lemma SecondRecoveryDropsANewMessage(d: Detector, c: Config, text: string, request: string)
    requires KeepsKinds(d)
    ensures var s, ls := Repeating(text), FirstRecovery() + SecondRequest(request);
            && Fresh(s) && PossibleRun(c, s, ls) && GoesByDetector(d, c, s, ls)
            && Final(c, s, ls) == Emit(Served(text, request), RECOVER)
    ensures var t, l := Emit(Served(text, request), RECOVER), Deliver(12, Oracle(false, LimitHit));
            && t.history == [7, 10] && t.stream[7] == ByUser(request) && Enabled(t, l) && IsSound(t)
            && Apply(c, t, l).history == []
  {
    hide Repeating, Recovered, Served, PossibleRun, Final, GoesByDetector, Apply;
    RecoversAgain(d, c, text, request);
    AgainFromTheStart(d, c, text, SecondRequest(request));
    RepeatingIsFresh(text);
    var t, l := Emit(Served(text, request), RECOVER), Deliver(12, Oracle(false, LimitHit));
    EmitIsSound(Served(text, request), RECOVER);
    LabelGoesOn(c, t, l);
    LabelHistory(c, t, l, 0, Apply(c, t, l).stream);
  }

  lemma RepeatingIsFresh(text: string)
    ensures Fresh(Repeating(text))
  {
  }
}
