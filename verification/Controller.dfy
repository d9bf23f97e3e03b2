/** The agent controller as a state machine: what each of its handlers does to the agent state, the one
    pending action, the history and the event stream.  Handlers run one at a time; between them anybody
    may add events.  An event's id is its position in the stream. */
module Controller {
  import opened Util

  datatype AgentState =
    | Loading | Running | AwaitingUserInput | Paused | Stopped | Finished | Rejected | Error
    | AwaitingUserConfirmation | UserConfirmed | UserRejected | RateLimited

  datatype Source = Agent | User | Environment

  datatype Confirmation = NotApplicable | Confirmed | Refused | Awaiting

  datatype Risk = Unknown | Low | Medium | High

  datatype Body =
    | ChangeState(to: AgentState)
    | Message(text: string, waits: bool)
    | Recall(query: string)
    | Finish
    | RejectTask
    | LoopRecovery(option: int)
    | Condensation
    | CondensationRequest
    | NullAction
    | OtherAction(kind: string, runnable: bool, confirmable: bool)
    // observations
    | StateChanged(state: AgentState)
    | NullObservation
    | ErrorObservation(content: string)
    | LoopDetection
    | OtherObservation(content: string)

  /** `call` is the tool-call metadata of the event. */
  datatype Event = Event(body: Body, source: Source, cause: Option<int>, call: Option<string>,
                         confirmation: Confirmation, thought: string, hidden: bool)

  predicate IsObservation(e: Event) {
    e.body.StateChanged? || e.body.NullObservation? || e.body.ErrorObservation? || e.body.LoopDetection?
        || e.body.OtherObservation?
  }

  predicate IsRunnable(e: Event) {
    e.body.OtherAction? && e.body.runnable
  }

  predicate IsUserMessage(e: Event) {
    e.body.Message? && e.source == User
  }

  /** An event the controller makes itself. */
  function Plain(body: Body, source: Source): Event {
    Event(body, source, None, None, NotApplicable, "", false)
  }

  /** An action that became pending: all the stream positions it was emitted at, whether _step issued
      it, and the recall action of the user message that displaced it. */
  datatype Issue = Issue(action: Event, ids: seq<nat>, byStep: bool, displacedBy: Option<nat>)

  datatype Pending = Pending(event: Event, id: nat, issue: nat)

  /** `history` lists stream positions.  `analysis` is the loop start found by the stuck detector.
      `issues` records what became of every action that was ever pending. */
  datatype State = State(
    agentState: AgentState, pending: Option<Pending>, stream: seq<Event>, history: seq<nat>,
    analysis: Option<nat>, closed: bool, issues: seq<Issue>)

  datatype Config = Config(stateConfirmation: bool, confirmation: bool, cli: bool, analyzer: bool)

  /** How a step of the agent turns out. */
  datatype Outcome =
    | Loop(start: nat)
    | LimitHit
    | Acts(action: Event, assessed: Risk)
    | Malformed(text: string)
    | ContextFull
    | Raises(rateLimited: bool)

  /** `cleared`: the stuck detector looked at enough events to forget an earlier analysis. */
  datatype Oracle = Oracle(cleared: bool, outcome: Outcome)

  // ----- small steps -----

  function Emit(s: State, e: Event): State {
    s.(stream := s.stream + [e])
  }

  /** `e` emitted and made the pending action, as a new issue. */
  function EmitPending(s: State, e: Event, byStep: bool): State {
    s.(stream := s.stream + [e],
       pending := Some(Pending(e, |s.stream|, |s.issues|)),
       issues := s.issues + [Issue(e, [|s.stream|], byStep, None)])
  }

  /** Does the history hold an observation with the tool-call metadata `call`? */
  predicate HistoryAnswers(s: State, call: Option<string>) {
    exists h :: h in s.history && h < |s.stream| && IsObservation(s.stream[h]) && s.stream[h].call == call
  }

  const NOT_EXECUTED_STOPPED := "Stop button pressed. The action has not been executed."
  const NOT_EXECUTED_ERROR := "The action has not been executed due to a runtime error."

  /** _reset: a pending action without an observation for its tool call gets an error observation. */
  function Reset(s: State): State {
    if s.pending.None? then s
    else
      var p := s.pending.value;
      var text := if s.agentState == Stopped then NOT_EXECUTED_STOPPED else NOT_EXECUTED_ERROR;
      var t := if HistoryAnswers(s, p.event.call) then s
               else Emit(s, Plain(ErrorObservation(text), Agent).(cause := Some(p.id as int), call := p.event.call));
      t.(pending := None)
  }

  /** The copy of a pending action that carries the user's answer. */
  function Answer(e: Event, answer: Confirmation): Event {
    e.(confirmation := answer, thought := "", source := Agent)
  }

  /** The pending action emitted once more, under a new id. */
  function EmitAnswer(s: State, answer: Confirmation): State
    requires s.pending.Some? && s.pending.value.issue < |s.issues|
  {
    var p := s.pending.value;
    var copy, issue := Answer(p.event, answer), s.issues[p.issue];
    s.(stream := s.stream + [copy],
       pending := Some(Pending(copy, |s.stream|, p.issue)),
       issues := s.issues[p.issue := issue.(ids := issue.ids + [|s.stream|])])
  }

  ghost predicate PendingRefersToIssue(s: State) {
    s.pending.Some? ==> s.pending.value.issue < |s.issues|
  }

  function SetState(s: State, to: AgentState): (r: State)
    requires PendingRefersToIssue(s)
    ensures PendingRefersToIssue(r)
  {
    if to == s.agentState then s
    else
      var s1 := s.(agentState := to);
      var s2 := if to == Stopped || to == Error then Reset(s1) else s1;
      var s3 := if s2.pending.Some? && to == UserConfirmed then EmitAnswer(s2, Confirmed)
                else if s2.pending.Some? && to == UserRejected then EmitAnswer(s2, Refused)
                else s2;
      Emit(s3, Plain(StateChanged(to), Environment))
  }

  // ----- handlers -----

  function HandleObservation(s: State, e: Event): (r: State)
    requires PendingRefersToIssue(s)
    ensures PendingRefersToIssue(r)
  {
    if s.pending.Some? && e.cause == Some(s.pending.value.id as int) then
      if s.agentState == AwaitingUserConfirmation then s
      else
        var t := s.(pending := None);
        if t.agentState == UserConfirmed then SetState(t, Running)
        else if t.agentState == UserRejected then SetState(t, AwaitingUserInput)
        else t
    else s
  }

  /** The recall of a user message takes the place of whatever was pending. */
  function Displace(s: State): (r: State)
    requires PendingRefersToIssue(s)
    ensures PendingRefersToIssue(r)
  {
    if s.pending.Some?
    then s.(pending := None,
            issues := var k := s.pending.value.issue; s.issues[k := s.issues[k].(displacedBy := Some(|s.stream|))])
    else s
  }

  function HandleMessage(s: State, text: string, waits: bool, source: Source): (r: State)
    requires PendingRefersToIssue(s)
    ensures PendingRefersToIssue(r)
  {
    if source == User then
      var t := EmitPending(Displace(s), Plain(Recall(text), User), false);
      if t.agentState != Running then SetState(t, Running) else t
    else if source == Agent && waits then SetState(s, AwaitingUserInput)
    else s
  }

  function Truncate(s: State, point: nat): State {
    if point >= |s.history| then s else s.(history := s.history[..point])
  }

  function PerformRecovery(s: State, point: nat): (r: State)
    requires PendingRefersToIssue(s)
    ensures PendingRefersToIssue(r)
  {
    Emit(SetState(Truncate(s, point), AwaitingUserInput), Plain(LoopDetection, Environment))
  }

  /** The text of the last user message among the first `n` entries of the history. */
  function LastUserMessage(s: State, n: nat): Option<string>
    requires n <= |s.history|
  {
    if n == 0 then None
    else
      var h := s.history[n - 1];
      if h < |s.stream| && IsUserMessage(s.stream[h]) then Some(s.stream[h].body.text) else LastUserMessage(s, n - 1)
  }

  function Restart(s: State, point: nat): (r: State)
    requires PendingRefersToIssue(s)
    ensures PendingRefersToIssue(r)
  {
    var last := LastUserMessage(s, |s.history|);
    if last.None? then PerformRecovery(s, point)
    else
      var t := Emit(SetState(Truncate(s, point), Running), Plain(LoopDetection, Environment));
      HandleMessage(t, last.value, false, User)
  }

  function HandleAction(s: State, e: Event): (r: State)
    requires PendingRefersToIssue(s)
    ensures PendingRefersToIssue(r)
  {
    match e.body
    case ChangeState(to) => SetState(s, to)
    case Message(text, waits) => HandleMessage(s, text, waits, e.source)
    case Finish => SetState(s, Finished)
    case RejectTask => SetState(s, Rejected)
    case LoopRecovery(option) =>
      if s.analysis.None? then s
      else if option == 1 then PerformRecovery(s, s.analysis.value)
      else if option == 2 then Restart(s, s.analysis.value)
      else if option == 3 then SetState(s, Stopped)
      else s
    case _ => s
  }

  // ----- stepping -----

  /** Without an analyzer every action counts as of unknown risk. */
  predicate NeedsConfirmation(c: Config, e: Event, assessed: Risk) {
    var risk := if c.analyzer then assessed else Unknown;
    && c.stateConfirmation && IsRunnable(e) && e.body.confirmable
    && (c.cli || ((risk == High || (risk == Unknown && !c.analyzer)) && c.confirmation))
  }

  function Prepared(c: Config, e: Event, assessed: Risk): Event {
    if NeedsConfirmation(c, e, assessed) then e.(confirmation := Awaiting) else e
  }

  /** The action of a step, as it goes out. */
  function SendOut(s: State, e: Event): (r: State)
    requires PendingRefersToIssue(s)
    ensures PendingRefersToIssue(r)
  {
    if e.body.NullAction? then s
    else
      var t := if e.confirmation == Awaiting then SetState(s, AwaitingUserConfirmation) else s;
      if IsRunnable(e) then EmitPending(t, e, true) else Emit(t, e)
  }

  function Step(c: Config, s: State, o: Oracle): (r: State)
    requires PendingRefersToIssue(s)
    ensures PendingRefersToIssue(r)
  {
    if s.agentState != Running || s.pending.Some? then s
    else
      var t := s.(analysis := if o.outcome.Loop? then Some(o.outcome.start)
                              else if o.cleared then None else s.analysis);
      match o.outcome
      case Loop(_) => SetState(t, Error)
      case LimitHit => SetState(t, Error)
      case Acts(action, assessed) => SendOut(t, Prepared(c, action, assessed))
      case Malformed(text) => Emit(t, Plain(ErrorObservation(text), Agent))
      case ContextFull => Emit(t, Plain(CondensationRequest, Agent))
      case Raises(rateLimited) => SetState(t, if rateLimited then RateLimited else Error)
  }

  predicate ShouldStep(agentState: AgentState, e: Event) {
    if e.body.Message? then e.source == User || agentState != AwaitingUserInput
    else if e.body.NullObservation? then e.cause.Some? && e.cause.value > 0
    else if IsObservation(e) then !e.body.StateChanged?
    else e.body.Condensation? || e.body.CondensationRequest?
  }

  /** The event types StateTracker keeps out of the history. */
  predicate InHistory(e: Event) {
    && !e.body.NullAction? && !e.body.NullObservation? && !e.body.ChangeState? && !e.body.StateChanged?
    && !e.hidden
  }

  function Handle(s: State, i: nat): (r: State)
    requires PendingRefersToIssue(s) && i < |s.stream|
    ensures PendingRefersToIssue(r)
  {
    var e := s.stream[i];
    var t := if InHistory(e) then s.(history := s.history + [i]) else s;
    if IsObservation(e) then HandleObservation(t, e) else HandleAction(t, e)
  }

  function OnEvent(c: Config, s: State, i: nat, o: Oracle): (r: State)
    requires PendingRefersToIssue(s) && i < |s.stream|
    ensures PendingRefersToIssue(r)
  {
    var e := s.stream[i];
    if e.hidden then s
    else
      var t := Handle(s, i);
      if ShouldStep(t.agentState, e) then Step(c, t, o) else t
  }

  // ----- runs -----

  datatype Label =
    | Others(e: Event)
    | Deliver(i: nat, o: Oracle)
    | StepNow(o: Oracle)
    | ExternalState(to: AgentState)
    | Close

  ghost predicate Enabled(s: State, l: Label) {
    match l
    case Others(_) => true
    case Deliver(i, _) => !s.closed && i < |s.stream|
    case StepNow(_) => !s.closed
    case ExternalState(_) => true
    case Close => !s.closed
  }

  ghost function Apply(c: Config, s: State, l: Label): (r: State)
    requires PendingRefersToIssue(s) && Enabled(s, l)
    ensures PendingRefersToIssue(r)
  {
    match l
    case Others(e) => Emit(s, e)
    case Deliver(i, o) => OnEvent(c, s, i, o)
    case StepNow(o) => Step(c, s, o)
    case ExternalState(to) => SetState(s, to)
    case Close => SetState(s, Stopped).(closed := true)
  }
}
