/** What the controller guarantees in every run: no tool call is dropped, and the confirmation protocol. */
module ControllerTheorems {
  import opened Util
  import opened Controller

  // ----- what is recorded about one issue -----

  function LastId(issue: Issue): nat
    requires issue.ids != []
  {
    issue.ids[|issue.ids| - 1]
  }

  /** The issued action is in the stream at its first id. */
  ghost predicate EmittedOk(stream: seq<Event>, issue: Issue) {
    && issue.ids != []
    && (forall i :: 0 <= i < |issue.ids| ==> issue.ids[i] < |stream|)
    && (forall i, j :: 0 <= i < j < |issue.ids| ==> issue.ids[i] < issue.ids[j])
    && stream[issue.ids[0]] == issue.action
  }

  /** An answer is followed at once by the entry into the state the user chose. */
  ghost predicate AnswerOk(stream: seq<Event>, action: Event, id: nat) {
    && id + 1 < |stream|
    && ((stream[id] == Answer(action, Confirmed) && stream[id + 1].body == StateChanged(UserConfirmed))
        || (stream[id] == Answer(action, Refused) && stream[id + 1].body == StateChanged(UserRejected)))
  }

  /** Every later emission of an issue is an answer. */
  ghost predicate AnswersOk(stream: seq<Event>, issue: Issue) {
    forall i :: 1 <= i < |issue.ids| ==> AnswerOk(stream, issue.action, issue.ids[i])
  }

  /** An action that awaits confirmation goes out right after the entry into the awaiting state. */
  ghost predicate AnnouncedOk(stream: seq<Event>, issue: Issue) {
    issue.byStep && issue.ids != [] && issue.action.confirmation == Awaiting ==>
      && 0 < issue.ids[0] <= |stream|
      && stream[issue.ids[0] - 1].body == StateChanged(AwaitingUserConfirmation)
  }

  /** What displaced an issue is the recall of a later user message. */
  ghost predicate DisplacedOk(stream: seq<Event>, issue: Issue) {
    issue.displacedBy.Some? ==>
      && issue.displacedBy.value < |stream|
      && stream[issue.displacedBy.value].body.Recall? && stream[issue.displacedBy.value].source == User
      && (forall i :: 0 <= i < |issue.ids| ==> issue.ids[i] < issue.displacedBy.value)
  }

  ghost predicate IssueOk(stream: seq<Event>, issue: Issue) {
    EmittedOk(stream, issue) && AnswersOk(stream, issue) && AnnouncedOk(stream, issue) && DisplacedOk(stream, issue)
  }

  /** Some observation in the stream names an emission of the issue as its cause, or carries its
      tool-call metadata. */
  ghost predicate Answered(stream: seq<Event>, issue: Issue) {
    exists j :: 0 <= j < |stream| && IsObservation(stream[j]) &&
      (stream[j].call == issue.action.call
          || (stream[j].cause.Some? && exists i :: 0 <= i < |issue.ids| && stream[j].cause.value == issue.ids[i]))
  }

  ghost predicate IsPending(s: State, k: nat) {
    s.pending.Some? && s.pending.value.issue == k
  }

  /** A tool call issued by _step is pending, answered, or displaced by a user message. */
  ghost predicate Accounted(s: State, k: nat)
    requires k < |s.issues|
  {
    s.issues[k].byStep && s.issues[k].action.call.Some? ==>
      IsPending(s, k) || Answered(s.stream, s.issues[k]) || s.issues[k].displacedBy.Some?
  }

  ghost predicate PendingOk(s: State) {
    s.pending.Some? ==>
      var p := s.pending.value;
      && p.issue < |s.issues| && s.issues[p.issue].ids != [] && p.id == LastId(s.issues[p.issue])
      && p.id < |s.stream| && p.event == s.stream[p.id]
      && s.issues[p.issue].displacedBy == None
  }

  ghost predicate HistoryOk(s: State) {
    forall h :: h in s.history ==> h < |s.stream|
  }

  ghost predicate Inv(s: State) {
    && PendingOk(s) && HistoryOk(s)
    && (forall k :: 0 <= k < |s.issues| ==> IssueOk(s.stream, s.issues[k]))
    && (forall k :: 0 <= k < |s.issues| ==> Accounted(s, k))
  }

  /** Nothing is pending once the agent is stopped or in error. */
  ghost predicate QuietWhenDown(s: State) {
    s.agentState == Stopped || s.agentState == Error ==> s.pending == None
  }

  // ----- the small steps keep it -----

  lemma IssueOkGrows(stream: seq<Event>, e: Event, issue: Issue)
    requires IssueOk(stream, issue)
    ensures IssueOk(stream + [e], issue)
  {
    forall i | 1 <= i < |issue.ids| ensures AnswerOk(stream + [e], issue.action, issue.ids[i]) {
      assert AnswerOk(stream, issue.action, issue.ids[i]);
    }
  }

  lemma AnsweredGrows(stream: seq<Event>, e: Event, issue: Issue)
    requires Answered(stream, issue)
    ensures Answered(stream + [e], issue)
  {
    var j :| 0 <= j < |stream| && IsObservation(stream[j]) &&
      (stream[j].call == issue.action.call
          || (stream[j].cause.Some? && exists i :: 0 <= i < |issue.ids| && stream[j].cause.value == issue.ids[i]));
    assert (stream + [e])[j] == stream[j];
  }

  lemma EmitKeepsInv(s: State, e: Event)
    requires Inv(s)
    ensures Inv(Emit(s, e))
  {
    var t := Emit(s, e);
    forall k | 0 <= k < |t.issues| ensures IssueOk(t.stream, t.issues[k]) && Accounted(t, k) {
      IssueOkGrows(s.stream, e, s.issues[k]);
      assert Accounted(s, k);
      if Answered(s.stream, s.issues[k]) { AnsweredGrows(s.stream, e, s.issues[k]); }
    }
  }

  /** The pending action may be let go once its tool call is answered. */
  lemma ReleaseKeepsInv(s: State)
    requires Inv(s) && s.pending.Some?
    requires Answered(s.stream, s.issues[s.pending.value.issue]) || s.issues[s.pending.value.issue].action.call.None?
    ensures Inv(s.(pending := None))
  {
    var t := s.(pending := None);
    forall k | 0 <= k < |t.issues| ensures Accounted(t, k) {
      assert Accounted(s, k);
    }
  }

  lemma EmitPendingKeepsInv(s: State, e: Event, byStep: bool)
    requires Inv(s) && s.pending.None?
    requires byStep && e.confirmation == Awaiting ==>
               s.stream != [] && s.stream[|s.stream| - 1].body == StateChanged(AwaitingUserConfirmation)
    ensures Inv(EmitPending(s, e, byStep))
  {
    EmitKeepsInv(s, e);
    var t, u := Emit(s, e), EmitPending(s, e, byStep);
    forall k | 0 <= k < |u.issues| ensures IssueOk(u.stream, u.issues[k]) && Accounted(u, k) {
      if k < |s.issues| {
        assert IssueOk(t.stream, t.issues[k]) && Accounted(t, k);
      }
    }
  }

  /** The call of a pending action is the call it was issued with, answer or not. */
  lemma PendingKeepsCall(s: State)
    requires Inv(s) && s.pending.Some?
    ensures s.pending.value.event.call == s.issues[s.pending.value.issue].action.call
  {
    var issue := s.issues[s.pending.value.issue];
    assert IssueOk(s.stream, issue);
    if |issue.ids| > 1 {
      assert AnswerOk(s.stream, issue.action, LastId(issue));
    }
  }

  lemma ResetKeepsInv(s: State)
    requires Inv(s)
    ensures Inv(Reset(s)) && Reset(s).pending == None && Reset(s).agentState == s.agentState
  {
    if s.pending.Some? {
      var p := s.pending.value;
      PendingKeepsCall(s);
      if HistoryAnswers(s, p.event.call) {
        var h :| h in s.history && h < |s.stream| && IsObservation(s.stream[h]) && s.stream[h].call == p.event.call;
        assert Answered(s.stream, s.issues[p.issue]);
        ReleaseKeepsInv(s);
      } else {
        var text := if s.agentState == Stopped then NOT_EXECUTED_STOPPED else NOT_EXECUTED_ERROR;
        var obs := Plain(ErrorObservation(text), Agent).(cause := Some(p.id as int), call := p.event.call);
        EmitKeepsInv(s, obs);
        var t := Emit(s, obs);
        assert t.stream[|s.stream|] == obs;
        assert Answered(t.stream, t.issues[p.issue]);
        ReleaseKeepsInv(t);
      }
    }
  }

  /** One more emission of an issue, an answer. */
  lemma AnsweredIssueOk(stream: seq<Event>, issue: Issue, id: nat)
    requires IssueOk(stream, issue) && issue.displacedBy.None? && AnswerOk(stream, issue.action, id)
    requires LastId(issue) < id
    ensures IssueOk(stream, issue.(ids := issue.ids + [id]))
    ensures Answered(stream, issue) ==> Answered(stream, issue.(ids := issue.ids + [id]))
  {
    var more := issue.(ids := issue.ids + [id]);
    forall i | 1 <= i < |more.ids| ensures AnswerOk(stream, issue.action, more.ids[i]) {
      assert i < |issue.ids| ==> AnswerOk(stream, issue.action, issue.ids[i]);
    }
    if Answered(stream, issue) {
      assert forall i :: 0 <= i < |issue.ids| ==> more.ids[i] == issue.ids[i];
    }
  }

  /** An answer and the state change that follows it. */
  lemma AnswerKeepsInv(s: State, to: AgentState)
    requires Inv(s) && s.pending.Some? && (to == UserConfirmed || to == UserRejected)
    ensures Inv(Emit(EmitAnswer(s, if to == UserConfirmed then Confirmed else Refused),
              Plain(StateChanged(to), Environment)))
  {
    hide IssueOk, Answered, Answer;
    var p := s.pending.value;
    var answer := if to == UserConfirmed then Confirmed else Refused;
    var copy, change := Answer(p.event, answer), Plain(StateChanged(to), Environment);
    var t, u := Emit(Emit(s, copy), change), Emit(EmitAnswer(s, answer), change);
    EmitKeepsInv(s, copy);
    EmitKeepsInv(Emit(s, copy), change);
    var issue := s.issues[p.issue];
    assert u.stream == t.stream && u.issues == s.issues[p.issue := issue.(ids := issue.ids + [|s.stream|])];
    AnswerOfPending(s);
    assert IssueOk(t.stream, t.issues[p.issue]);
    AnsweredIssueOk(t.stream, issue, |s.stream|);
    forall k | 0 <= k < |u.issues| ensures IssueOk(u.stream, u.issues[k]) && Accounted(u, k) {
      assert IssueOk(t.stream, t.issues[k]) && Accounted(t, k);
    }
  }

  /** A pending action differs from the issued one at most by an earlier answer. */
  lemma AnswerOfPending(s: State)
    requires Inv(s) && s.pending.Some?
    ensures forall a :: Answer(s.pending.value.event, a) == Answer(s.issues[s.pending.value.issue].action, a)
  {
    var issue := s.issues[s.pending.value.issue];
    assert IssueOk(s.stream, issue);
    if |issue.ids| > 1 {
      assert AnswerOk(s.stream, issue.action, LastId(issue));
    }
  }

  lemma AgentStateIsFree(s: State, to: AgentState)
    requires Inv(s)
    ensures Inv(s.(agentState := to))
  {
    forall k | 0 <= k < |s.issues| ensures Accounted(s.(agentState := to), k) {
      assert Accounted(s, k);
    }
  }

  lemma SetStateKeepsInv(s: State, to: AgentState)
    requires Inv(s)
    ensures Inv(SetState(s, to)) && SetState(s, to).agentState == to
    ensures to != s.agentState || QuietWhenDown(s) ==> QuietWhenDown(SetState(s, to))
    ensures var t := SetState(s, to);
            to != s.agentState ==>
              t.stream != [] && t.stream[|t.stream| - 1] == Plain(StateChanged(to), Environment)
    ensures s.pending.None? ==> SetState(s, to).pending.None? && SetState(s, to).issues == s.issues
  {
    if to != s.agentState {
      hide Inv, Reset, EmitAnswer;
      var s1 := s.(agentState := to);
      AgentStateIsFree(s, to);
      if to == Stopped || to == Error {
        ResetKeepsInv(s1);
        EmitKeepsInv(Reset(s1), Plain(StateChanged(to), Environment));
      } else if s1.pending.Some? && (to == UserConfirmed || to == UserRejected) {
        AnswerKeepsInv(s1, to);
      } else {
        EmitKeepsInv(s1, Plain(StateChanged(to), Environment));
      }
    }
  }

  // ----- the handlers keep it -----

  ghost predicate Good(s: State) {
    Inv(s) && QuietWhenDown(s)
  }

  lemma SetStateKeepsGood(s: State, to: AgentState)
    requires Good(s)
    ensures Good(SetState(s, to))
  {
    SetStateKeepsInv(s, to);
  }

  lemma EmitKeepsGood(s: State, e: Event)
    requires Good(s)
    ensures Good(Emit(s, e))
  {
    EmitKeepsInv(s, e);
  }

  /** An observation that names the pending action answers it. */
  lemma NamingReleases(s: State, i: nat)
    requires Good(s) && i < |s.stream| && IsObservation(s.stream[i])
    requires s.pending.Some? && s.stream[i].cause == Some(s.pending.value.id as int)
    ensures Good(s.(pending := None))
  {
    var issue := s.issues[s.pending.value.issue];
    assert s.stream[i].cause.value == issue.ids[|issue.ids| - 1];
    assert Answered(s.stream, issue);
    ReleaseKeepsInv(s);
  }

  lemma ObservationKeepsGood(s: State, i: nat)
    requires Good(s) && i < |s.stream| && IsObservation(s.stream[i])
    ensures Good(HandleObservation(s, s.stream[i]))
  {
    if s.pending.Some? && s.stream[i].cause == Some(s.pending.value.id as int) {
      NamingReleases(s, i);
      SetStateKeepsGood(s.(pending := None), Running);
      SetStateKeepsGood(s.(pending := None), AwaitingUserInput);
    }
  }

  lemma DisplaceKeepsInv(s: State, recall: Event)
    requires Inv(s) && recall.body.Recall? && recall.source == User
    ensures Inv(EmitPending(Displace(s), recall, false))
  {
    if s.pending.None? {
      EmitPendingKeepsInv(s, recall, false);
    } else {
      EmitKeepsInv(s, recall);
      var p := s.pending.value;
      var t, u := Emit(s, recall), EmitPending(Displace(s), recall, false);
      assert IssueOk(s.stream, s.issues[p.issue]) && IssueOk(t.stream, t.issues[p.issue]);
      DisplacedIssueOk(t.stream, t.issues[p.issue], |s.stream|);
      forall k | 0 <= k < |u.issues| ensures IssueOk(u.stream, u.issues[k]) && Accounted(u, k) {
        assert k < |s.issues| ==> IssueOk(t.stream, t.issues[k]) && Accounted(t, k);
      }
    }
  }

  lemma DisplacedIssueOk(stream: seq<Event>, issue: Issue, id: nat)
    requires IssueOk(stream, issue) && id < |stream| && stream[id].body.Recall? && stream[id].source == User
    requires forall i :: 0 <= i < |issue.ids| ==> issue.ids[i] < id
    ensures IssueOk(stream, issue.(displacedBy := Some(id)))
  {
    forall i | 1 <= i < |issue.ids| ensures AnswerOk(stream, issue.action, issue.ids[i]) {
    }
  }

  lemma MessageKeepsGood(s: State, text: string, waits: bool, source: Source)
    requires Good(s)
    ensures Good(HandleMessage(s, text, waits, source))
  {
    if source == User {
      var recall := Plain(Recall(text), User);
      DisplaceKeepsInv(s, recall);
      SetStateKeepsInv(EmitPending(Displace(s), recall, false), Running);
    } else {
      SetStateKeepsGood(s, AwaitingUserInput);
    }
  }

  lemma TruncateKeepsGood(s: State, point: nat)
    requires Good(s)
    ensures Good(Truncate(s, point))
  {
    var t := Truncate(s, point);
    forall h | h in t.history ensures h in s.history {
    }
    forall k | 0 <= k < |t.issues| ensures Accounted(t, k) { assert Accounted(s, k); }
  }

  lemma RecoveryKeepsGood(s: State, point: nat)
    requires Good(s)
    ensures Good(PerformRecovery(s, point))
  {
    TruncateKeepsGood(s, point);
    SetStateKeepsGood(Truncate(s, point), AwaitingUserInput);
    EmitKeepsGood(SetState(Truncate(s, point), AwaitingUserInput), Plain(LoopDetection, Environment));
  }

  lemma RestartKeepsGood(s: State, point: nat)
    requires Good(s)
    ensures Good(Restart(s, point))
  {
    var last := LastUserMessage(s, |s.history|);
    if last.None? {
      RecoveryKeepsGood(s, point);
    } else {
      TruncateKeepsGood(s, point);
      var t := SetState(Truncate(s, point), Running);
      SetStateKeepsGood(Truncate(s, point), Running);
      EmitKeepsGood(t, Plain(LoopDetection, Environment));
      MessageKeepsGood(Emit(t, Plain(LoopDetection, Environment)), last.value, false, User);
    }
  }

  lemma LoopRecoveryKeepsGood(s: State, e: Event)
    requires Good(s) && e.body.LoopRecovery?
    ensures Good(HandleAction(s, e))
  {
    if s.analysis.Some? {
      RecoveryKeepsGood(s, s.analysis.value);
      RestartKeepsGood(s, s.analysis.value);
    }
    SetStateKeepsGood(s, Stopped);
  }

  lemma ActionKeepsGood(s: State, e: Event)
    requires Good(s)
    ensures Good(HandleAction(s, e))
  {
    match e.body
    case ChangeState(to) => SetStateKeepsGood(s, to);
    case Message(text, waits) => MessageKeepsGood(s, text, waits, e.source);
    case Finish => SetStateKeepsGood(s, Finished);
    case RejectTask => SetStateKeepsGood(s, Rejected);
    case LoopRecovery(_) => LoopRecoveryKeepsGood(s, e);
    case _ =>
  }

  lemma HandleKeepsGood(s: State, i: nat)
    requires Good(s) && i < |s.stream|
    ensures Good(Handle(s, i))
  {
    var e := s.stream[i];
    var t := if InHistory(e) then s.(history := s.history + [i]) else s;
    forall k | 0 <= k < |t.issues| ensures Accounted(t, k) { assert Accounted(s, k); }
    if IsObservation(e) { ObservationKeepsGood(t, i); } else { ActionKeepsGood(t, e); }
  }

  lemma SendOutKeepsGood(s: State, e: Event)
    requires Good(s) && s.pending.None? && s.agentState == Running
    ensures Good(SendOut(s, e))
  {
    if !e.body.NullAction? {
      SetStateKeepsInv(s, AwaitingUserConfirmation);
      var t := if e.confirmation == Awaiting then SetState(s, AwaitingUserConfirmation) else s;
      if IsRunnable(e) { EmitPendingKeepsInv(t, e, true); } else { EmitKeepsInv(t, e); }
    }
  }

  lemma AnyAnalysisKeepsGood(s: State, analysis: Option<nat>)
    requires Good(s)
    ensures Good(s.(analysis := analysis))
  {
    var t := s.(analysis := analysis);
    forall k | 0 <= k < |t.issues| ensures Accounted(t, k) { assert Accounted(s, k); }
  }

  lemma StepKeepsGood(c: Config, s: State, o: Oracle)
    requires Good(s)
    ensures Good(Step(c, s, o))
  {
    hide Good, SetState, SendOut, Prepared;
    if s.agentState == Running && s.pending.None? {
      var t := s.(analysis := if o.outcome.Loop? then Some(o.outcome.start)
                              else if o.cleared then None else s.analysis);
      AnyAnalysisKeepsGood(s, t.analysis);
      SetStateKeepsGood(t, Error);
      match o.outcome
      case Acts(action, assessed) => SendOutKeepsGood(t, Prepared(c, action, assessed));
      case Malformed(text) => EmitKeepsGood(t, Plain(ErrorObservation(text), Agent));
      case ContextFull => EmitKeepsGood(t, Plain(CondensationRequest, Agent));
      case Raises(_) => SetStateKeepsGood(t, RateLimited);
      case _ =>
    }
  }

  lemma LabelKeepsGood(c: Config, s: State, l: Label)
    requires Good(s) && Enabled(s, l)
    ensures Good(Apply(c, s, l))
  {
    match l
    case Others(e) => EmitKeepsInv(s, e);
    case Deliver(i, o) =>
      HandleKeepsGood(s, i);
      StepKeepsGood(c, Handle(s, i), o);
    case StepNow(o) => StepKeepsGood(c, s, o);
    case ExternalState(to) => SetStateKeepsInv(s, to);
    case Close =>
      SetStateKeepsInv(s, Stopped);
      var t := SetState(s, Stopped);
      forall k | 0 <= k < |t.issues| ensures Accounted(t.(closed := true), k) { assert Accounted(t, k); }
  }

  // ----- whole runs -----

  ghost predicate PossibleRun(c: Config, s: State, ls: seq<Label>)
    requires PendingRefersToIssue(s)
    decreases |ls|
  {
    ls == [] || (Enabled(s, ls[0]) && PossibleRun(c, Apply(c, s, ls[0]), ls[1..]))
  }

  ghost function Final(c: Config, s: State, ls: seq<Label>): State
    requires PendingRefersToIssue(s) && PossibleRun(c, s, ls)
    decreases |ls|
  {
    if ls == [] then s else Final(c, Apply(c, s, ls[0]), ls[1..])
  }

  /** The controller as it is created: nothing issued yet, any stream, any history drawn from it. */
  ghost predicate Fresh(s: State) {
    s.pending.None? && s.issues == [] && HistoryOk(s)
  }

  lemma {:induction false} RunKeepsGood(c: Config, s: State, ls: seq<Label>)
    requires Good(s) && PossibleRun(c, s, ls)
    ensures Good(Final(c, s, ls))
    decreases |ls|
  {
    if ls != [] {
      LabelKeepsGood(c, s, ls[0]);
      RunKeepsGood(c, Apply(c, s, ls[0]), ls[1..]);
    }
  }

  /** The states at the handler boundaries of the runs of a controller. */
  ghost predicate Reachable(c: Config, s: State) {
    exists s0, ls :: Fresh(s0) && PossibleRun(c, s0, ls) && s == Final(c, s0, ls)
  }

  lemma ReachableIsGood(c: Config, s: State)
    requires Reachable(c, s)
    ensures Good(s)
  {
    var s0, ls :| Fresh(s0) && PossibleRun(c, s0, ls) && s == Final(c, s0, ls);
    RunKeepsGood(c, s0, ls);
  }

  /** No tool call is dropped: at every handler boundary of every run, each runnable tool call issued by
      _step is still pending, or is answered in the stream, or was displaced by the recall of a later
      user message; and nothing is pending while the agent is stopped or in error. */
  lemma NoToolCallIsDropped(c: Config, s: State, ls: seq<Label>)
    requires Fresh(s) && PossibleRun(c, s, ls)
    ensures var t := Final(c, s, ls);
            && (forall k :: 0 <= k < |t.issues| && t.issues[k].byStep && t.issues[k].action.call.Some? ==>
                  || (t.pending.Some? && t.pending.value.issue == k && t.pending.value.id in t.issues[k].ids)
                  || Answered(t.stream, t.issues[k])
                  || (t.issues[k].displacedBy.Some? && DisplacedOk(t.stream, t.issues[k])))
            && (t.agentState == Stopped || t.agentState == Error ==> t.pending == None)
  {
    RunKeepsGood(c, s, ls);
    var t := Final(c, s, ls);
    forall k | 0 <= k < |t.issues| ensures Accounted(t, k) && IssueOk(t.stream, t.issues[k]) {
    }
  }

  /** Confirmation protocol: in every run, an action that awaits confirmation stands in the stream right
      after the entry into AWAITING_USER_CONFIRMATION, and every later copy of a pending action carries
      the answer of the entry into USER_CONFIRMED or USER_REJECTED that follows it, under a larger id. */
  lemma ConfirmationProtocol(c: Config, s: State, ls: seq<Label>, k: nat)
    requires Fresh(s) && PossibleRun(c, s, ls) && k < |Final(c, s, ls).issues|
    ensures var t := Final(c, s, ls); var issue := t.issues[k];
            && EmittedOk(t.stream, issue) && AnnouncedOk(t.stream, issue) && AnswersOk(t.stream, issue)
  {
    RunKeepsGood(c, s, ls);
    assert IssueOk(Final(c, s, ls).stream, Final(c, s, ls).issues[k]);
  }

  /** _step issues an action only when the agent is running and nothing is pending; one that needs
      confirmation leaves the agent awaiting it. */
  lemma StepIssuesOnlyWhenIdle(c: Config, s: State, o: Oracle)
    requires Good(s)
    ensures var t := Step(c, s, o);
            && (t.issues != s.issues ==> s.agentState == Running && s.pending.None? && |t.issues| == |s.issues| + 1)
            && (t.issues != s.issues && NeedsConfirmation(c, o.outcome.action, o.outcome.assessed) ==>
                  && t.stream == s.stream + [Plain(StateChanged(AwaitingUserConfirmation), Environment),
                                             o.outcome.action.(confirmation := Awaiting)]
                  && t.agentState == AwaitingUserConfirmation
                  && t.pending == Some(Pending(o.outcome.action.(confirmation := Awaiting), |s.stream| + 1,
                      |s.issues|)))
  {
    SetStateKeepsInv(s, AwaitingUserConfirmation);
    if s.agentState == Running && s.pending.None? {
      assert Reset(s.(agentState := Error)) == s.(agentState := Error);
    }
  }

  /** An observation releases the pending action exactly when it names its current id and the agent is
      not awaiting confirmation; in any other case the handler changes nothing. */
  lemma ReleasedExactlyBy(c: Config, s: State, e: Event)
    requires Reachable(c, s) && s.pending.Some? && IsObservation(e)
    ensures PendingRefersToIssue(s)
    ensures var named := e.cause == Some(s.pending.value.id as int);
            && (HandleObservation(s, e).pending == None <==> named && s.agentState != AwaitingUserConfirmation)
            && (!(named && s.agentState != AwaitingUserConfirmation) ==> HandleObservation(s, e) == s)
  {
    ReachableIsGood(c, s);
  }

  /** While the agent awaits confirmation, and after the answer, an observation of the unconfirmed
      emission changes nothing but the history: it neither releases the action nor lets the agent step. */
  lemma UnconfirmedObservationIsIgnored(c: Config, s: State, i: nat, o: Oracle)
    requires Reachable(c, s) && PendingOk(s) && s.pending.Some? && i < |s.stream| && IsObservation(s.stream[i])
    requires s.stream[i].cause == Some(s.issues[s.pending.value.issue].ids[0] as int)
    requires s.agentState == AwaitingUserConfirmation || |s.issues[s.pending.value.issue].ids| > 1
    ensures OnEvent(c, s, i, o).(history := s.history) == s
  {
    ReachableIsGood(c, s);
    var issue := s.issues[s.pending.value.issue];
    assert IssueOk(s.stream, issue);
    assert |issue.ids| > 1 ==> issue.ids[0] < LastId(issue);
  }

  /** Entering USER_CONFIRMED or USER_REJECTED with an action pending emits one copy of it, under a fresh
      and larger id, and makes that copy the pending action; without one it emits only the state change. */
  lemma EntryEmitsOneAnswer(c: Config, s: State, to: AgentState)
    requires Reachable(c, s) && to != s.agentState && (to == UserConfirmed || to == UserRejected)
    ensures PendingRefersToIssue(s)
    ensures var t := SetState(s, to); var change := Plain(StateChanged(to), Environment);
            if s.pending.None? then t.stream == s.stream + [change] && t.pending == None
            else
              && var answer := if to == UserConfirmed then Confirmed else Refused;
              && t.stream == s.stream + [Answer(s.issues[s.pending.value.issue].action, answer), change]
              && t.pending.Some? && t.pending.value.id == |s.stream| > s.pending.value.id
              && t.pending.value.issue == s.pending.value.issue
  {
    ReachableIsGood(c, s);
    if s.pending.Some? {
      AnswerOfPending(s);
    }
  }

  // ----- recovery and what came after the report -----

  lemma SetStateKeepsHistory(s: State, to: AgentState)
    requires PendingRefersToIssue(s)
    ensures SetState(s, to).history == s.history && SetState(s, to).analysis == s.analysis
  {
  }

  lemma RecoveryHistory(s: State, point: nat)
    requires PendingRefersToIssue(s)
    ensures PerformRecovery(s, point).history == Truncate(s, point).history == Restart(s, point).history
  {
    hide SetState;
    SetStateKeepsHistory(Truncate(s, point), AwaitingUserInput);
    SetStateKeepsHistory(Truncate(s, point), Running);
    var last := LastUserMessage(s, |s.history|);
    if last.Some? {
      var t := Emit(SetState(Truncate(s, point), Running), Plain(LoopDetection, Environment));
      SetStateKeepsHistory(EmitPending(Displace(t), Plain(Recall(last.value), User), false), Running);
    }
  }

  lemma ActionHistory(s: State, e: Event)
    requires PendingRefersToIssue(s)
    ensures HandleAction(s, e).history
            == if e.body.LoopRecovery? && s.analysis.Some? && (e.body.option == 1 || e.body.option == 2)
               then Truncate(s, s.analysis.value).history else s.history
  {
    hide SetState, PerformRecovery, Restart;
    match e.body
    case ChangeState(to) => SetStateKeepsHistory(s, to);
    case Message(text, waits) =>
      SetStateKeepsHistory(s, AwaitingUserInput);
      SetStateKeepsHistory(EmitPending(Displace(s), Plain(Recall(text), User), false), Running);
    case Finish => SetStateKeepsHistory(s, Finished);
    case RejectTask => SetStateKeepsHistory(s, Rejected);
    case LoopRecovery(_) =>
      SetStateKeepsHistory(s, Stopped);
      if s.analysis.Some? { RecoveryHistory(s, s.analysis.value); }
    case _ =>
  }

  lemma HandleHistory(s: State, i: nat)
    requires PendingRefersToIssue(s) && i < |s.stream|
    ensures var e := s.stream[i]; var grown := if InHistory(e) then s.history + [i] else s.history;
            Handle(s, i).history
            == if e.body.LoopRecovery? && s.analysis.Some? && (e.body.option == 1 || e.body.option == 2)
                && s.analysis.value < |grown|
               then grown[..s.analysis.value] else grown
  {
    var e := s.stream[i];
    var t := if InHistory(e) then s.(history := s.history + [i]) else s;
    if IsObservation(e) {
      SetStateKeepsHistory(t.(pending := None), Running);
      SetStateKeepsHistory(t.(pending := None), AwaitingUserInput);
    } else {
      ActionHistory(t, e);
    }
  }

  lemma StepKeepsHistory(c: Config, s: State, o: Oracle)
    requires PendingRefersToIssue(s)
    ensures Step(c, s, o).history == s.history
  {
    hide SetState;
    var t := s.(analysis := if o.outcome.Loop? then Some(o.outcome.start) else if o.cleared then None else s.analysis);
    SetStateKeepsHistory(t, Error);
    SetStateKeepsHistory(t, RateLimited);
    SetStateKeepsHistory(t, AwaitingUserConfirmation);
  }

  /** The analysis of a report with the start `p` is still there in every state of the run. */
  ghost predicate AnalysisStays(c: Config, s: State, ls: seq<Label>, p: nat)
    requires PendingRefersToIssue(s) && PossibleRun(c, s, ls)
    decreases |ls|
  {
    s.analysis == Some(p) && (ls != [] ==> AnalysisStays(c, Apply(c, s, ls[0]), ls[1..], p))
  }

  lemma LabelKeepsStart(c: Config, s: State, l: Label, p: nat)
    requires PendingRefersToIssue(s) && Enabled(s, l) && s.analysis == Some(p) && p <= |s.history|
    ensures p <= |Apply(c, s, l).history| && Apply(c, s, l).history[..p] == s.history[..p]
  {
    match l
    case Others(_) =>
    case Deliver(i, o) =>
      HandleHistory(s, i);
      StepKeepsHistory(c, Handle(s, i), o);
    case StepNow(o) => StepKeepsHistory(c, s, o);
    case ExternalState(to) => SetStateKeepsHistory(s, to);
    case Close => SetStateKeepsHistory(s, Stopped);
  }

  /** As long as an analysis is not replaced, the history before its start stays as it was, whatever is
      handled and however often the agent recovers. */
  lemma {:induction false} StartStaysUntouched(c: Config, s: State, ls: seq<Label>, p: nat)
    requires PendingRefersToIssue(s) && PossibleRun(c, s, ls) && AnalysisStays(c, s, ls, p) && p <= |s.history|
    ensures var t := Final(c, s, ls); p <= |t.history| && t.history[..p] == s.history[..p] && t.analysis == Some(p)
    decreases |ls|
  {
    if ls != [] {
      LabelKeepsStart(c, s, ls[0], p);
      StartStaysUntouched(c, Apply(c, s, ls[0]), ls[1..], p);
    }
  }

  lemma {:induction false} FinalRefers(c: Config, s: State, ls: seq<Label>)
    requires PendingRefersToIssue(s) && PossibleRun(c, s, ls)
    ensures PendingRefersToIssue(Final(c, s, ls))
    decreases |ls|
  {
    if ls != [] {
      FinalRefers(c, Apply(c, s, ls[0]), ls[1..]);
    }
  }

  /** The first recovery after a report cuts exactly what the report allows and what came since. */
  lemma FirstRecoveryCutsFromTheStart(c: Config, s: State, ls: seq<Label>, p: nat)
    requires PendingRefersToIssue(s) && PossibleRun(c, s, ls) && AnalysisStays(c, s, ls, p) && p <= |s.history|
    ensures PendingRefersToIssue(Final(c, s, ls)) && PerformRecovery(Final(c, s, ls), p).history == s.history[..p]
  {
    hide PerformRecovery, Restart, AnalysisStays, PossibleRun, Final;
    StartStaysUntouched(c, s, ls, p);
    FinalRefers(c, s, ls);
    RecoveryHistory(Final(c, s, ls), p);
  }
}
