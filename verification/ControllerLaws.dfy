/** What the events of a conversation do to the agent, said from the events, the configuration and the
    agent's state alone. */
module ControllerLaws {
  import opened Util
  import opened Controller
  import opened ControllerTheorems

  function Change(to: AgentState): Event {
    Plain(StateChanged(to), Environment)
  }

  /** SetState where nothing is pending, or where the new state leaves what is pending alone. */
  lemma PlainChange(s: State, to: AgentState)
    requires PendingRefersToIssue(s)
    requires s.pending.None? || (to != Stopped && to != Error && to != UserConfirmed && to != UserRejected)
    ensures SetState(s, to) == if to == s.agentState then s
                               else s.(agentState := to, stream := s.stream + [Change(to)])
  {
  }

  // ----- the result of an action -----

  /** The result of the pending action decides where the agent goes: it runs on after a confirmed action,
      turns to the user after a rejected one, and otherwise stays in its state. */
  lemma ResultDecidesState(c: Config, s: State, e: Event)
    requires Reachable(c, s) && s.pending.Some? && IsObservation(e) && e.cause == Some(s.pending.value.id as int)
    ensures PendingRefersToIssue(s)
    ensures HandleObservation(s, e) ==
            match s.agentState
            case AwaitingUserConfirmation => s
            case UserConfirmed =>
              s.(pending := None, agentState := Running, stream := s.stream + [Change(Running)])
            case UserRejected =>
              s.(pending := None, agentState := AwaitingUserInput, stream := s.stream + [Change(AwaitingUserInput)])
            case _ => s.(pending := None)
  {
    ReachableIsGood(c, s);
  }

  lemma RunOfOne(c: Config, s: State, l: Label)
    requires PendingRefersToIssue(s) && Enabled(s, l)
    ensures PossibleRun(c, s, [l]) && Final(c, s, [l]) == Apply(c, s, l)
  {
    hide Apply, Enabled;
    var none: seq<Label> := [];
    assert [l][1..] == none;
    assert PossibleRun(c, Apply(c, s, l), none) && Final(c, Apply(c, s, l), none) == Apply(c, s, l);
  }

  lemma RunOfThree(c: Config, s: State, a: Label, b: Label, l: Label)
    requires PendingRefersToIssue(s) && Enabled(s, a) && Enabled(Apply(c, s, a), b)
    requires Enabled(Apply(c, Apply(c, s, a), b), l)
    ensures PossibleRun(c, s, [a, b, l]) && Final(c, s, [a, b, l]) == Apply(c, Apply(c, Apply(c, s, a), b), l)
  {
    hide Apply, Enabled;
    var s1 := Apply(c, s, a);
    var s2 := Apply(c, s1, b);
    assert [a, b, l][1..] == [b, l] && [b, l][1..] == [l];
    RunOfOne(c, s2, l);
    assert PossibleRun(c, s1, [b, l]) && Final(c, s1, [b, l]) == Final(c, s2, [l]);
  }

  /** The entry into the state the user chose. */
  lemma AnswerGoesOut(s: State, to: AgentState)
    requires Good(s) && s.pending.Some? && s.agentState != to && (to == UserConfirmed || to == UserRejected)
    ensures var p := s.pending.value; var issue := s.issues[p.issue];
            var copy := issue.action.(confirmation := if to == UserConfirmed then Confirmed else Refused,
                                      thought := "", source := Agent);
            SetState(s, to) == s.(agentState := to, stream := s.stream + [copy, Change(to)],
                                  pending := Some(Pending(copy, |s.stream|, p.issue)),
                                  issues := s.issues[p.issue := issue.(ids := issue.ids + [|s.stream|])])
  {
    AnswerOfPending(s);
    var answer := if to == UserConfirmed then Confirmed else Refused;
    var copy := Answer(s.pending.value.event, answer);
    assert copy == Answer(s.issues[s.pending.value.issue].action, answer);
    assert s.stream + [copy] + [Change(to)] == s.stream + [copy, Change(to)];
  }

  /** The result of what is pending, delivered after an answer. */
  lemma ResultIsHandled(s: State, i: nat)
    requires PendingRefersToIssue(s) && i < |s.stream| && s.pending.Some?
    requires s.agentState == UserConfirmed || s.agentState == UserRejected
    requires IsObservation(s.stream[i]) && s.stream[i].cause == Some(s.pending.value.id as int)
    ensures var next := if s.agentState == UserConfirmed then Running else AwaitingUserInput;
            Handle(s, i) == s.(history := if InHistory(s.stream[i]) then s.history + [i] else s.history,
                               pending := None, agentState := next, stream := s.stream + [Change(next)])
  {
    hide InHistory;
    var h := s.(history := if InHistory(s.stream[i]) then s.history + [i] else s.history, pending := None);
    PlainChange(h, Running);
    PlainChange(h, AwaitingUserInput);
  }

  lemma ExternalStateIsSet(c: Config, s: State, to: AgentState)
    requires Good(s)
    ensures PendingRefersToIssue(s) && PendingRefersToIssue(SetState(s, to))
    ensures Enabled(s, ExternalState(to)) && Apply(c, s, ExternalState(to)) == SetState(s, to)
    ensures s.pending.Some? ==> s.stream != []
  {
    hide SetState;
  }

  lemma StepsOnlyWhileRunning(c: Config, s: State, o: Oracle)
    requires PendingRefersToIssue(s) && (s.agentState != Running || s.pending.Some?)
    ensures Step(c, s, o) == s
  {
  }

  lemma ResultIsDelivered(c: Config, s: State, result: Event, o: Oracle) returns (t: State)
    requires PendingRefersToIssue(s) && !s.closed && s.pending.Some?
    requires s.agentState == UserConfirmed || s.agentState == UserRejected
    requires IsObservation(result) && !result.hidden && !result.body.StateChanged?
               && result.cause == Some(s.pending.value.id as int) && s.pending.value.id > 0
    ensures var l, emitted := Deliver(|s.stream|, o), Apply(c, s, Others(result));
            && Enabled(s, Others(result)) && Enabled(emitted, l) && PendingRefersToIssue(t)
            && Apply(c, emitted, l) == Step(c, t, o)
    ensures var next := if s.agentState == UserConfirmed then Running else AwaitingUserInput;
            && t.agentState == next && t.pending == None && t.stream == s.stream + [result, Change(next)]
  {
    hide Handle, InHistory, Step;
    var emitted := Emit(s, result);
    ResultIsHandled(emitted, |s.stream|);
    t := Handle(emitted, |s.stream|);
    assert s.stream + [result] + [Change(t.agentState)] == s.stream + [result, Change(t.agentState)];
  }

  /** From the answer of the user to the end of the action: entering USER_CONFIRMED or USER_REJECTED emits
      the copy with the answer; its result releases it; and then the agent makes a step of its own after a
      confirmation, and waits for input after a rejection.  `t` is where that step begins. */
  lemma AnswerIsCarriedOut(c: Config, s: State, to: AgentState, result: Event, o: Oracle) returns (t: State)
    requires Reachable(c, s) && PendingOk(s) && !s.closed && s.pending.Some? && s.agentState != to
    requires to == UserConfirmed || to == UserRejected
    requires IsObservation(result) && !result.hidden && !result.body.StateChanged?
               && result.cause == Some(|s.stream|)
    ensures var ls := [ExternalState(to), Others(result), Deliver(|s.stream| + 2, o)];
            PossibleRun(c, s, ls) && PendingRefersToIssue(t) && Final(c, s, ls) == Step(c, t, o)
    ensures var action := s.issues[s.pending.value.issue].action;
            var next := if to == UserConfirmed then Running else AwaitingUserInput;
            var answer := if to == UserConfirmed then Confirmed else Refused;
            && t.agentState == next && t.pending == None
            && t.stream == s.stream + [action.(confirmation := answer, thought := "", source := Agent), Change(to),
                                       result, Change(next)]
            && (to == UserRejected ==> Step(c, t, o) == t)
  {
    hide *;
    ReachableIsGood(c, s);
    AnswerGoesOut(s, to);
    ExternalStateIsSet(c, s, to);
    t := ResultIsDelivered(c, SetState(s, to), result, o);
    RunOfThree(c, s, ExternalState(to), Others(result), Deliver(|s.stream| + 2, o));
    if to == UserRejected {
      StepsOnlyWhileRunning(c, t, o);
    }
  }

  // ----- a step of the agent -----

  /** The step emits the action as it is and the agent runs on. */
  ghost predicate EmitsAtOnce(c: Config, s: State, o: Oracle)
    requires PendingRefersToIssue(s) && o.outcome.Acts?
  {
    var t := Step(c, s, o);
    t.agentState == Running && t.stream == s.stream + [o.outcome.action]
  }

  /** The step asks: the agent awaits confirmation and only then the action goes out, marked as awaiting it. */
  ghost predicate Asks(c: Config, s: State, o: Oracle)
    requires PendingRefersToIssue(s) && o.outcome.Acts?
  {
    var t := Step(c, s, o);
    && t.agentState == AwaitingUserConfirmation
    && t.stream == s.stream + [Change(AwaitingUserConfirmation), o.outcome.action.(confirmation := Awaiting)]
  }

  /** Which actions ask.  A command, cell, browse, edit or read of a conversation in confirmation mode asks
      in CLI mode whatever its risk, and otherwise, if the controller confirms at all, without an analyzer
      always and with one exactly if its assessed risk is HIGH.  Everything else goes out at once, unless
      it comes marked already. */
  lemma WhichActionsAsk(c: Config, s: State, o: Oracle)
    requires Reachable(c, s) && s.agentState == Running && s.pending.None? && o.outcome.Acts?
    requires !o.outcome.action.body.NullAction? && o.outcome.action.confirmation != Awaiting
    ensures PendingRefersToIssue(s) && (Asks(c, s, o) <==> !EmitsAtOnce(c, s, o))
    ensures var e := o.outcome.action;
            if c.stateConfirmation && IsRunnable(e) && e.body.confirmable then
              && (c.cli ==> Asks(c, s, o))
              && (!c.cli && !c.confirmation ==> EmitsAtOnce(c, s, o))
              && (!c.cli && c.confirmation && !c.analyzer ==> Asks(c, s, o))
              && (!c.cli && c.confirmation && c.analyzer ==> (Asks(c, s, o) <==> o.outcome.assessed == High))
            else EmitsAtOnce(c, s, o)
  {
    var t := s.(analysis := if o.cleared then None else s.analysis);
    PlainChange(t, AwaitingUserConfirmation);
    assert s.stream + [Change(AwaitingUserConfirmation)] + [o.outcome.action.(confirmation := Awaiting)]
        == s.stream + [Change(AwaitingUserConfirmation), o.outcome.action.(confirmation := Awaiting)];
  }

  /** An action that comes marked, from a replayed trajectory, asks in every configuration. */
  lemma MarkedActionsAsk(c: Config, s: State, o: Oracle)
    requires Reachable(c, s) && s.agentState == Running && s.pending.None? && o.outcome.Acts?
    requires !o.outcome.action.body.NullAction? && o.outcome.action.confirmation == Awaiting
    ensures PendingRefersToIssue(s) && Asks(c, s, o)
  {
    var t := s.(analysis := if o.cleared then None else s.analysis);
    PlainChange(t, AwaitingUserConfirmation);
    assert s.stream + [Change(AwaitingUserConfirmation)] + [o.outcome.action]
        == s.stream + [Change(AwaitingUserConfirmation), o.outcome.action];
    assert o.outcome.action.(confirmation := Awaiting) == o.outcome.action;
  }

  /** How a step leaves a running agent: in ERROR exactly after a loop, a limit or an exception, RATE_LIMITED
      exactly after one that a provider's limit caused, awaiting confirmation exactly if it asked, and running
      otherwise. */
  lemma HowAStepEnds(c: Config, s: State, o: Oracle)
    requires Reachable(c, s) && s.agentState == Running && s.pending.None?
    ensures PendingRefersToIssue(s)
    ensures var t, out := Step(c, s, o), o.outcome;
            && (t.agentState == Error <==> out.Loop? || out.LimitHit? || out == Raises(false))
            && (t.agentState == RateLimited <==> out == Raises(true))
            && (t.agentState == AwaitingUserConfirmation <==>
                  out.Acts? && !out.action.body.NullAction? && Asks(c, s, o))
            && t.agentState in {Error, RateLimited, AwaitingUserConfirmation, Running}
  {
    var t := s.(analysis := if o.outcome.Loop? then Some(o.outcome.start) else if o.cleared then None else s.analysis);
    if o.outcome.Acts? {
      if !o.outcome.action.body.NullAction? {
        if o.outcome.action.confirmation == Awaiting {
          MarkedActionsAsk(c, s, o);
        } else {
          WhichActionsAsk(c, s, o);
        }
      }
    } else {
      PlainChange(t, Error);
      PlainChange(t, RateLimited);
    }
  }

  /** What it leaves behind: exactly an emitted action that needs a result is pending, a malformed answer of
      the model is shown to it, and a full context asks for a condensation. */
  lemma WhatAStepLeaves(c: Config, s: State, o: Oracle)
    requires Reachable(c, s) && s.agentState == Running && s.pending.None?
    ensures PendingRefersToIssue(s)
    ensures var t, out := Step(c, s, o), o.outcome;
            && (t.pending.Some? <==> out.Acts? && IsRunnable(out.action))
            && (t.pending.Some? ==> t.pending.value.id + 1 == |t.stream|
                                    && t.pending.value.event == t.stream[t.pending.value.id])
            && (out.Malformed? ==> t.stream == s.stream + [Plain(ErrorObservation(out.text), Agent)])
            && (out.ContextFull? ==> t.stream == s.stream + [Plain(CondensationRequest, Agent)])
            && (out.Loop? ==> t.analysis == Some(out.start))
  {
    var t := s.(analysis := if o.outcome.Loop? then Some(o.outcome.start) else if o.cleared then None else s.analysis);
    hide NeedsConfirmation, SetState;
    PlainChange(t, AwaitingUserConfirmation);
    PlainChange(t, Error);
    PlainChange(t, RateLimited);
  }

  // ----- which events make the agent step -----

  /** Handling event `i` makes the agent step: how the step would turn out matters. */
  ghost predicate Wakes(c: Config, s: State, i: nat)
    requires PendingRefersToIssue(s) && i < |s.stream|
  {
    exists o, o' :: OnEvent(c, s, i, o) != OnEvent(c, s, i, o')
  }

  /** An event wakes the agent exactly if it leaves the agent running with nothing pending and is a message
      of the agent, a condensation or the request for one, the null observation of anything but the very
      first event, or any other observation but a change of state. */
  lemma WakesExactlyBy(c: Config, s: State, i: nat)
    requires Reachable(c, s) && i < |s.stream| && !s.stream[i].hidden
    ensures PendingRefersToIssue(s)
    ensures var e, t := s.stream[i], Handle(s, i);
            Wakes(c, s, i) <==>
              && t.agentState == Running && t.pending.None?
              && (|| e.body.Message? || e.body.Condensation? || e.body.CondensationRequest?
                  || (e.body.NullObservation? && e.cause.Some? && e.cause.value > 0)
                  || e.body.ErrorObservation? || e.body.LoopDetection? || e.body.OtherObservation?)
  {
    ReachableIsGood(c, s);
    var e, t := s.stream[i], Handle(s, i);
    if t.agentState == Running && t.pending.None? {
      var o, o' := Oracle(false, Raises(true)), Oracle(false, Raises(false));
      PlainChange(t, Error);
      PlainChange(t, RateLimited);
      assert ShouldStep(t.agentState, e) ==> OnEvent(c, s, i, o) != OnEvent(c, s, i, o');
    }
  }

  /** A hidden event changes nothing at all. */
  lemma HiddenEventsAreIgnored(c: Config, s: State, i: nat, o: Oracle)
    requires Reachable(c, s) && i < |s.stream| && s.stream[i].hidden
    ensures PendingRefersToIssue(s) && OnEvent(c, s, i, o) == s
  {
    ReachableIsGood(c, s);
  }

  /** What becomes part of the history the agent sees: anything delivered but null events, changes of state
      and hidden events. */
  lemma EntersHistoryExactlyWhen(c: Config, s: State, i: nat, o: Oracle)
    requires Reachable(c, s) && i < |s.stream| && !s.stream[i].body.LoopRecovery?
    ensures PendingRefersToIssue(s)
    ensures var e := s.stream[i];
            OnEvent(c, s, i, o).history ==
            if e.hidden || e.body.NullAction? || e.body.NullObservation? || e.body.ChangeState? || e.body.StateChanged?
            then s.history else s.history + [i]
  {
    ReachableIsGood(c, s);
    HandleHistory(s, i);
    StepKeepsHistory(c, Handle(s, i), o);
  }

  lemma UserMessageIsHandled(s: State, i: nat)
    requires PendingRefersToIssue(s) && i < |s.stream| && IsUserMessage(s.stream[i]) && !s.stream[i].hidden
    ensures var t, recall := Handle(s, i), Plain(Recall(s.stream[i].body.text), User);
            && t.agentState == Running && t.pending == Some(Pending(recall, |s.stream|, |s.issues|))
            && t.stream == s.stream + [recall] + (if s.agentState == Running then [] else [Change(Running)])
            && t.closed == s.closed
  {
    var h := s.(history := s.history + [i]);
    PlainChange(EmitPending(Displace(h), Plain(Recall(s.stream[i].body.text), User), false), Running);
  }

  lemma ResultReleases(s: State, i: nat)
    requires PendingRefersToIssue(s) && i < |s.stream| && s.pending.Some? && s.agentState == Running
    requires IsObservation(s.stream[i]) && s.stream[i].cause == Some(s.pending.value.id as int)
    ensures var t := Handle(s, i);
            t.agentState == Running && t.pending == None && t.stream == s.stream
  {
    hide InHistory;
  }

  /** A user message is acted on: its delivery emits a recall and sets the agent running, and the delivery of
      whatever observes that recall makes the agent step.  `t` is where that step begins. */
  lemma UserMessageIsActedOn(c: Config, s: State, i: nat, o: Oracle, result: Event, o': Oracle) returns (t: State)
    requires Reachable(c, s) && !s.closed && i < |s.stream| && IsUserMessage(s.stream[i]) && !s.stream[i].hidden
    requires IsObservation(result) && !result.hidden && !result.body.StateChanged?
               && result.cause == Some(|s.stream|)
    ensures var at := |s.stream| + (if s.agentState == Running then 1 else 2);
            var ls := [Deliver(i, o), Others(result), Deliver(at, o')];
            && PendingRefersToIssue(s) && PendingRefersToIssue(t) && PossibleRun(c, s, ls)
            && Final(c, s, ls) == Step(c, t, o')
    ensures t.agentState == Running && t.pending == None
    ensures t.stream == s.stream + [Plain(Recall(s.stream[i].body.text), User)]
                        + (if s.agentState == Running then [] else [Change(Running)]) + [result]
  {
    ReachableIsGood(c, s);
    hide Handle, Step, Good, Reachable;
    UserMessageIsHandled(s, i);
    var s1 := Handle(s, i);
    assert Apply(c, s, Deliver(i, o)) == s1 by { StepsOnlyWhileRunning(c, s1, o); }
    var s2 := Emit(s1, result);
    ResultReleases(s2, |s1.stream|);
    t := Handle(s2, |s1.stream|);
    RunOfThree(c, s, Deliver(i, o), Others(result), Deliver(|s1.stream|, o'));
  }

  // ----- what the actions of a conversation do to the agent's state -----

  /** A message for the user stops the agent only if it waits for a response; finishing, giving up and the
      choices of loop recovery lead to their states; every other action leaves the state. */
  lemma ActionDecidesState(c: Config, s: State, e: Event)
    requires Reachable(c, s) && !IsObservation(e)
    ensures PendingRefersToIssue(s)
    ensures var asked := exists h :: h in s.history && h < |s.stream| && IsUserMessage(s.stream[h]);
            HandleAction(s, e).agentState ==
            match e.body
            case ChangeState(to) => to
            case Message(_, waits) =>
              if e.source == User then Running else if e.source == Agent && waits then AwaitingUserInput
              else s.agentState
            case Finish => Finished
            case RejectTask => Rejected
            case LoopRecovery(option) =>
              if s.analysis.None? then s.agentState
              else if option == 1 then AwaitingUserInput
              else if option == 2 then (if asked then Running else AwaitingUserInput)
              else if option == 3 then Stopped
              else s.agentState
            case _ => s.agentState
  {
    ReachableIsGood(c, s);
    hide Good, PerformRecovery, Restart, HandleMessage, SetState, Reachable, IsUserMessage, LastUserMessage;
    match e.body
    case ChangeState(to) => StateIsSet(s, to);
    case Message(text, waits) => StateAfterMessage(s, text, waits, e.source);
    case Finish => StateIsSet(s, Finished);
    case RejectTask => StateIsSet(s, Rejected);
    case LoopRecovery(option) =>
      LastUserMessageIsFound(s, |s.history|);
      assert s.history[..|s.history|] == s.history;
      StateIsSet(s, Stopped);
      if s.analysis.Some? { StateAfterRecovery(s, s.analysis.value); }
    case _ =>
  }

  lemma StateIsSet(s: State, to: AgentState)
    requires PendingRefersToIssue(s)
    ensures SetState(s, to).agentState == to
  {
  }

  lemma StateAfterMessage(s: State, text: string, waits: bool, source: Source)
    requires PendingRefersToIssue(s)
    ensures HandleMessage(s, text, waits, source).agentState
            == if source == User then Running else if source == Agent && waits then AwaitingUserInput else s.agentState
  {
  }

  lemma StateAfterRecovery(s: State, point: nat)
    requires PendingRefersToIssue(s)
    ensures PerformRecovery(s, point).agentState == AwaitingUserInput
    ensures Restart(s, point).agentState
            == if LastUserMessage(s, |s.history|).Some? then Running else AwaitingUserInput
  {
    hide LastUserMessage, SetState, HandleMessage;
    StateIsSet(Truncate(s, point), AwaitingUserInput);
    StateIsSet(Truncate(s, point), Running);
    var last := LastUserMessage(s, |s.history|);
    if last.Some? {
      StateAfterMessage(Emit(SetState(Truncate(s, point), Running), Plain(LoopDetection, Environment)), last.value,
          false, User);
    }
  }

  /** Entry `j` of the history is a user message. */
  predicate AskedAt(s: State, j: int) {
    0 <= j < |s.history| && s.history[j] < |s.stream| && IsUserMessage(s.stream[s.history[j]])
  }

  lemma {:induction false} LastUserMessageIsFound(s: State, n: nat)
    requires n <= |s.history|
    ensures LastUserMessage(s, n).Some? <==>
              exists h :: h in s.history[..n] && h < |s.stream| && IsUserMessage(s.stream[h])
  {
    if n > 0 {
      LastUserMessageIsFound(s, n - 1);
      assert s.history[..n] == s.history[..n - 1] + [s.history[n - 1]];
    }
  }

  lemma {:induction false} LastUserMessageAt(s: State, n: nat, j: nat)
    requires n <= |s.history| && j < n && AskedAt(s, j) && forall k :: j < k < n ==> !AskedAt(s, k)
    ensures LastUserMessage(s, n) == Some(s.stream[s.history[j]].body.text)
  {
    if j < n - 1 {
      assert !AskedAt(s, n - 1);
      LastUserMessageAt(s, n - 1, j);
    }
  }

  lemma RunningIsSet(s: State)
    requires PendingRefersToIssue(s)
    ensures var t := SetState(s, Running);
            && t.agentState == Running
            && t.stream == s.stream + (if s.agentState == Running then [] else [Change(Running)])
  {
  }

  lemma RecalledWhileRunning(s: State, text: string)
    requires PendingRefersToIssue(s) && s.agentState == Running
    ensures var t := HandleMessage(s, text, false, User);
            && t.stream == s.stream + [Plain(Recall(text), User)]
            && t.pending.Some? && t.pending.value.id + 1 == |t.stream|
  {
  }

  /** The state after a restart that recalls `text`. */
  ghost predicate Recalls(s: State, t: State, text: string) {
    && t.stream == s.stream + (if s.agentState == Running then [] else [Change(Running)])
                   + [Plain(LoopDetection, Environment), Plain(Recall(text), User)]
    && t.pending.Some? && t.pending.value.id + 1 == |t.stream|
  }

  lemma RestartRecalls(s: State, point: nat)
    requires PendingRefersToIssue(s) && LastUserMessage(s, |s.history|).Some?
    ensures Recalls(s, Restart(s, point), LastUserMessage(s, |s.history|).value)
  {
    hide SetState, HandleMessage, LastUserMessage;
    RunningIsSet(Truncate(s, point));
    RecalledWhileRunning(Emit(SetState(Truncate(s, point), Running), Plain(LoopDetection, Environment)),
        LastUserMessage(s, |s.history|).value);
  }

  /** Restarting recalls the last user message of the history as it was before it is cut. */
  lemma RestartRecallsTheLastMessage(c: Config, s: State, e: Event, j: nat)
    requires Reachable(c, s) && e.body == LoopRecovery(2) && s.analysis.Some?
    requires AskedAt(s, j) && forall k :: j < k < |s.history| ==> !AskedAt(s, k)
    ensures PendingRefersToIssue(s)
    ensures var t := HandleAction(s, e);
            && t.stream == s.stream + (if s.agentState == Running then [] else [Change(Running)])
                           + [Plain(LoopDetection, Environment),
                              Plain(Recall(s.stream[s.history[j]].body.text), User)]
            && t.pending.Some? && t.pending.value.id + 1 == |t.stream|
  {
    ReachableIsGood(c, s);
    LastUserMessageAt(s, |s.history|, j);
    hide Good, Reachable, Restart, PerformRecovery, LastUserMessage;
    RestartRecalls(s, s.analysis.value);
  }

  /** Stopping or failing with an action pending: unless the history answers its call, an error observation
      does, naming the action and telling whether the user or an error was the reason. */
  lemma StoppingAnswersThePending(c: Config, s: State, to: AgentState)
    requires Reachable(c, s) && PendingOk(s) && s.pending.Some? && (to == Stopped || to == Error)
    ensures PendingRefersToIssue(s)
    ensures var t, call := SetState(s, to), s.issues[s.pending.value.issue].action.call;
            var answered :=
              exists h :: h in s.history && h < |s.stream| && IsObservation(s.stream[h]) && s.stream[h].call == call;
            var text := if to == Stopped then "Stop button pressed. The action has not been executed."
                        else "The action has not been executed due to a runtime error.";
            var cause := Some(s.pending.value.id);
            var answer := Event(ErrorObservation(text), Agent, cause, call, NotApplicable, "", false);
            && t.pending == None && t.agentState == to
            && t.stream == s.stream + (if answered then [] else [answer]) + [Change(to)]
  {
    ReachableIsGood(c, s);
    PendingKeepsCall(s);
    assert s.agentState != to;
  }

  // ----- every change of the agent's state can be read off the stream -----

  /** The state told by the last change of state among `es`, or the one before. */
  function Told(before: AgentState, es: seq<Event>): AgentState
    decreases |es|
  {
    if es == [] then before
    else if es[|es| - 1].body.StateChanged? then es[|es| - 1].body.state
    else Told(before, es[..|es| - 1])
  }

  lemma {:induction false} ToldAppend(before: AgentState, xs: seq<Event>, ys: seq<Event>)
    ensures Told(before, xs + ys) == Told(Told(before, xs), ys)
  {
    if ys == [] {
      assert xs + ys == xs;
    } else {
      var n := |ys| - 1;
      assert (xs + ys)[..|xs + ys| - 1] == xs + ys[..n];
      ToldAppend(before, xs, ys[..n]);
    }
  }

  /** What was added to the stream from `s` to `t` tells how the agent's state changed. */
  ghost predicate Tells(s: State, t: State) {
    s.stream <= t.stream && t.agentState == Told(s.agentState, t.stream[|s.stream|..])
  }

  lemma TellsThrough(s: State, t: State, u: State)
    requires Tells(s, t) && Tells(t, u)
    ensures Tells(s, u)
  {
    assert u.stream[|s.stream|..] == t.stream[|s.stream|..] + u.stream[|t.stream|..];
    ToldAppend(s.agentState, t.stream[|s.stream|..], u.stream[|t.stream|..]);
  }

  lemma EmitTells(s: State, e: Event)
    requires !e.body.StateChanged?
    ensures Tells(s, Emit(s, e))
  {
    assert (s.stream + [e])[|s.stream|..] == [e];
    assert [e][..0] == [];
  }

  lemma SameStreamTells(s: State, t: State)
    requires t.stream == s.stream && t.agentState == s.agentState
    ensures Tells(s, t)
  {
  }

  /** No pending action is a change of state. */
  ghost predicate PendingIsAction(s: State) {
    s.pending.Some? ==> !IsObservation(s.pending.value.event)
  }

  lemma SetStateEnds(s: State, to: AgentState)
    requires PendingRefersToIssue(s) && PendingIsAction(s)
    ensures var t := SetState(s, to);
            if to == s.agentState then t == s
            else
              && t.agentState == to && PendingIsAction(t) && |s.stream| < |t.stream| && s.stream <= t.stream
              && t.stream[|t.stream| - 1] == Change(to)
  {
  }

  lemma SetStateTells(s: State, to: AgentState)
    requires PendingRefersToIssue(s) && PendingIsAction(s)
    ensures Tells(s, SetState(s, to)) && PendingIsAction(SetState(s, to))
  {
    var t := SetState(s, to);
    hide SetState, PendingIsAction;
    SetStateEnds(s, to);
    if to != s.agentState {
      var added := t.stream[|s.stream|..];
      assert added[|added| - 1] == t.stream[|t.stream| - 1];
    } else {
      SameStreamTells(s, t);
    }
  }

  lemma EmitPendingTells(s: State, e: Event, byStep: bool)
    requires !IsObservation(e)
    ensures Tells(s, EmitPending(s, e, byStep)) && PendingIsAction(EmitPending(s, e, byStep))
  {
    EmitTells(s, e);
  }

  lemma MessageTells(s: State, text: string, waits: bool, source: Source)
    requires PendingRefersToIssue(s) && PendingIsAction(s)
    ensures Tells(s, HandleMessage(s, text, waits, source)) && PendingIsAction(HandleMessage(s, text, waits, source))
  {
    hide SetState, Told;
    if source == User {
      var t := EmitPending(Displace(s), Plain(Recall(text), User), false);
      SameStreamTells(s, Displace(s));
      EmitPendingTells(Displace(s), Plain(Recall(text), User), false);
      TellsThrough(s, Displace(s), t);
      SetStateTells(t, Running);
      TellsThrough(s, t, SetState(t, Running));
    } else {
      SetStateTells(s, AwaitingUserInput);
      SameStreamTells(s, s);
    }
  }

  lemma RecoveryTells(s: State, point: nat, to: AgentState)
    requires PendingRefersToIssue(s) && PendingIsAction(s)
    ensures var t := Emit(SetState(Truncate(s, point), to), Plain(LoopDetection, Environment));
            Tells(s, t) && PendingIsAction(t)
  {
    hide SetState, Told;
    var u := SetState(Truncate(s, point), to);
    SameStreamTells(s, Truncate(s, point));
    SetStateTells(Truncate(s, point), to);
    TellsThrough(s, Truncate(s, point), u);
    EmitTells(u, Plain(LoopDetection, Environment));
    TellsThrough(s, u, Emit(u, Plain(LoopDetection, Environment)));
  }

  lemma LoopRecoveryTells(s: State, option: int)
    requires PendingRefersToIssue(s) && PendingIsAction(s) && s.analysis.Some?
    ensures var t := if option == 1 then PerformRecovery(s, s.analysis.value) else Restart(s, s.analysis.value);
            Tells(s, t) && PendingIsAction(t)
  {
    hide SetState, Told, Tells, PendingIsAction, HandleMessage;
    var point := s.analysis.value;
    RecoveryTells(s, point, AwaitingUserInput);
    RecoveryTells(s, point, Running);
    var t := Emit(SetState(Truncate(s, point), Running), Plain(LoopDetection, Environment));
    var last := LastUserMessage(s, |s.history|);
    if last.Some? {
      MessageTells(t, last.value, false, User);
      TellsThrough(s, t, HandleMessage(t, last.value, false, User));
    }
  }

  lemma ActionTells(s: State, e: Event)
    requires PendingRefersToIssue(s) && PendingIsAction(s)
    ensures Tells(s, HandleAction(s, e)) && PendingIsAction(HandleAction(s, e))
  {
    hide SetState, Told, Tells, PendingIsAction, HandleMessage, PerformRecovery, Restart;
    SameStreamTells(s, s);
    match e.body
    case ChangeState(to) => SetStateTells(s, to);
    case Message(text, waits) => MessageTells(s, text, waits, e.source);
    case Finish => SetStateTells(s, Finished);
    case RejectTask => SetStateTells(s, Rejected);
    case LoopRecovery(option) =>
      SetStateTells(s, Stopped);
      if s.analysis.Some? { LoopRecoveryTells(s, option); }
    case _ =>
  }

  lemma HandleTells(s: State, i: nat)
    requires PendingRefersToIssue(s) && PendingIsAction(s) && i < |s.stream|
    ensures Tells(s, Handle(s, i)) && PendingIsAction(Handle(s, i))
  {
    hide SetState, Told, HandleAction;
    var e := s.stream[i];
    var t := if InHistory(e) then s.(history := s.history + [i]) else s;
    SameStreamTells(s, t);
    if IsObservation(e) {
      var u := t.(pending := None);
      SameStreamTells(s, u);
      SetStateTells(u, Running);
      SetStateTells(u, AwaitingUserInput);
      TellsThrough(s, u, SetState(u, Running));
      TellsThrough(s, u, SetState(u, AwaitingUserInput));
    } else {
      ActionTells(t, e);
      TellsThrough(s, t, HandleAction(t, e));
    }
  }

  /** What the agent returns is an action. */
  predicate ActsByActions(o: Oracle) {
    o.outcome.Acts? ==> !IsObservation(o.outcome.action)
  }

  lemma SendOutTells(s: State, e: Event)
    requires PendingRefersToIssue(s) && PendingIsAction(s) && !IsObservation(e)
    ensures Tells(s, SendOut(s, e)) && PendingIsAction(SendOut(s, e))
  {
    hide SetState, Told;
    var t := if e.confirmation == Awaiting then SetState(s, AwaitingUserConfirmation) else s;
    SetStateTells(s, AwaitingUserConfirmation);
    SameStreamTells(s, s);
    EmitPendingTells(t, e, true);
    EmitTells(t, e);
    TellsThrough(s, t, EmitPending(t, e, true));
    TellsThrough(s, t, Emit(t, e));
  }

  lemma StepTells(c: Config, s: State, o: Oracle)
    requires PendingRefersToIssue(s) && PendingIsAction(s) && ActsByActions(o)
    ensures Tells(s, Step(c, s, o)) && PendingIsAction(Step(c, s, o))
  {
    hide SetState, Told, SendOut, NeedsConfirmation;
    SameStreamTells(s, s);
    if s.agentState == Running && s.pending.None? {
      var t := s.(analysis := if o.outcome.Loop? then Some(o.outcome.start)
                              else if o.cleared then None else s.analysis);
      SameStreamTells(s, t);
      match o.outcome
      case Acts(action, assessed) =>
        SendOutTells(t, Prepared(c, action, assessed));
        TellsThrough(s, t, SendOut(t, Prepared(c, action, assessed)));
      case Malformed(text) =>
        EmitTells(t, Plain(ErrorObservation(text), Agent));
        TellsThrough(s, t, Emit(t, Plain(ErrorObservation(text), Agent)));
      case ContextFull =>
        EmitTells(t, Plain(CondensationRequest, Agent));
        TellsThrough(s, t, Emit(t, Plain(CondensationRequest, Agent)));
      case _ =>
        SetStateTells(t, Error);
        SetStateTells(t, RateLimited);
        TellsThrough(s, t, SetState(t, Error));
        TellsThrough(s, t, SetState(t, RateLimited));
    }
  }

  /** Nobody but the controller tells changes of state, and the agent returns actions. */
  predicate Proper(l: Label) {
    match l
    case Others(e) => !e.body.StateChanged?
    case Deliver(_, o) => ActsByActions(o)
    case StepNow(o) => ActsByActions(o)
    case _ => true
  }

  lemma LabelTells(c: Config, s: State, l: Label)
    requires PendingRefersToIssue(s) && PendingIsAction(s) && Enabled(s, l) && Proper(l)
    ensures Tells(s, Apply(c, s, l)) && PendingIsAction(Apply(c, s, l))
  {
    hide SetState, Told, Step, Handle;
    SameStreamTells(s, s);
    match l
    case Others(e) => EmitTells(s, e);
    case Deliver(i, o) =>
      HandleTells(s, i);
      StepTells(c, Handle(s, i), o);
      TellsThrough(s, Handle(s, i), Step(c, Handle(s, i), o));
    case StepNow(o) => StepTells(c, s, o);
    case ExternalState(to) => SetStateTells(s, to);
    case Close =>
      SetStateTells(s, Stopped);
      SameStreamTells(SetState(s, Stopped), Apply(c, s, l));
      TellsThrough(s, SetState(s, Stopped), Apply(c, s, l));
  }

  /** Over any run, the agent is in the state told by the last change of state emitted since: whoever
      reads the stream knows the state, whatever was handled, confirmed, recovered or stopped. */
  lemma {:induction false} StreamTellsTheState(c: Config, s: State, ls: seq<Label>)
    requires PendingRefersToIssue(s) && PendingIsAction(s) && PossibleRun(c, s, ls)
    requires forall i :: 0 <= i < |ls| ==> Proper(ls[i])
    ensures var t := Final(c, s, ls);
            s.stream <= t.stream && t.agentState == Told(s.agentState, t.stream[|s.stream|..])
    decreases |ls|
  {
    hide Apply, Told, PendingIsAction;
    if ls == [] {
      SameStreamTells(s, s);
    } else {
      LabelTells(c, s, ls[0]);
      StreamTellsTheState(c, Apply(c, s, ls[0]), ls[1..]);
      TellsThrough(s, Apply(c, s, ls[0]), Final(c, s, ls));
    }
  }
}
