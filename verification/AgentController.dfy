/** The controller as the object it is.  Every method does what its function in Controller says. */
module AgentController {
  import opened Util
  import opened Controller

  class AgentController {
    const config: Config
    var agentState: AgentState
    /** _pending_action and its id. */
    var pendingAction: Option<Event>
    var pendingId: nat
    var stream: seq<Event>
    var history: seq<nat>
    var analysis: Option<nat>
    var closed: bool
    ghost var pendingIssue: nat
    ghost var issues: seq<Issue>

    constructor (config: Config, agentState: AgentState, stream: seq<Event>, history: seq<nat>)
      ensures View() == State(agentState, None, stream, history, None, false, []) && this.config == config
    {
      this.config, this.agentState, this.stream, this.history := config, agentState, stream, history;
      pendingAction, pendingId, analysis, closed := None, 0, None, false;
      pendingIssue, issues := 0, [];
    }

    ghost function View(): State
      reads this
    {
      var pending := if pendingAction.Some? then Some(Pending(pendingAction.value, pendingId, pendingIssue)) else None;
      State(agentState, pending, stream, history, analysis, closed, issues)
    }

    ghost predicate Valid()
      reads this
    {
      PendingRefersToIssue(View())
    }

    method AddEvent(e: Event)
      modifies this`stream
      ensures View() == Emit(old(View()), e)
    {
      stream := stream + [e];
    }

    /** Make `e` the pending action and emit it. */
    method AddPending(e: Event, ghost byStep: bool)
      modifies this
      ensures View() == EmitPending(old(View()), e, byStep)
    {
      pendingAction, pendingId, pendingIssue := Some(e), |stream|, |issues|;
      issues := issues + [Issue(e, [|stream|], byStep, None)];
      AddEvent(e);
    }

    method Reset()
      requires Valid()
      modifies this
      ensures Valid() && View() == Controller.Reset(old(View()))
    {
      if pendingAction.Some? {
        var found := false;
        for i := 0 to |history|
          invariant View() == old(View()) && !found
          invariant forall h :: h in history[..i]
                      ==> !(h < |stream| && IsObservation(stream[h]) && stream[h].call == pendingAction.value.call)
        {
          if history[i] < |stream| && IsObservation(stream[history[i]])
              && stream[history[i]].call == pendingAction.value.call {
            found := true;
            assert history[i] in history;
            break;
          }
          assert history[..i + 1] == history[..i] + [history[i]];
        }
        assert !found ==> history[..|history|] == history;
        assert found == HistoryAnswers(View(), pendingAction.value.call);
        if !found {
          var text := if agentState == Stopped then NOT_EXECUTED_STOPPED else NOT_EXECUTED_ERROR;
          AddEvent(Plain(ErrorObservation(text), Agent).(cause := Some(pendingId as int),
              call := pendingAction.value.call));
        }
      }
      pendingAction := None;
    }

    method SetAgentStateTo(to: AgentState)
      requires Valid()
      modifies this
      ensures Valid() && View() == SetState(old(View()), to)
    {
      hide Controller.Reset, Answer;
      if to == agentState {
        return;
      }
      agentState := to;
      if to == Stopped || to == Error {
        Reset();
      }
      if pendingAction.Some? && (to == UserConfirmed || to == UserRejected) {
        var copy := Answer(pendingAction.value, if to == UserConfirmed then Confirmed else Refused);
        issues := issues[pendingIssue := issues[pendingIssue].(ids := issues[pendingIssue].ids + [|stream|])];
        pendingAction, pendingId := Some(copy), |stream|;
        AddEvent(copy);
      }
      AddEvent(Plain(StateChanged(to), Environment));
    }

    method HandleObservation(e: Event)
      requires Valid()
      modifies this
      ensures Valid() && View() == Controller.HandleObservation(old(View()), e)
      ensures old(agentState) == AwaitingUserConfirmation ==> View() == old(View())
      ensures old(pendingAction.Some? && e.cause == Some(pendingId as int)) ==>
                && (old(agentState) != AwaitingUserConfirmation ==> pendingAction.None?)
                && agentState == match old(agentState)
                                 case UserConfirmed => Running
                                 case UserRejected => AwaitingUserInput
                                 case before => before
    {
      if pendingAction.Some? && e.cause == Some(pendingId as int) {
        if agentState == AwaitingUserConfirmation {
          return;
        }
        pendingAction := None;
        if agentState == UserConfirmed {
          SetAgentStateTo(Running);
        }
        if agentState == UserRejected {
          SetAgentStateTo(AwaitingUserInput);
        }
      }
    }

    method HandleMessageAction(text: string, waits: bool, source: Source)
      requires Valid()
      modifies this
      ensures Valid() && View() == HandleMessage(old(View()), text, waits, source)
    {
      if source == User {
        if pendingAction.Some? {
          issues := issues[pendingIssue := issues[pendingIssue].(displacedBy := Some(|stream|))];
        }
        AddPending(Plain(Recall(text), User), false);
        if agentState != Running {
          SetAgentStateTo(Running);
        }
      } else if source == Agent {
        if waits {
          SetAgentStateTo(AwaitingUserInput);
        }
      }
    }

    method TruncateMemoryToPoint(point: nat)
      modifies this`history
      ensures View() == Truncate(old(View()), point)
    {
      if point >= |history| {
        return;
      }
      history := history[..point];
    }

    method PerformLoopRecovery(point: nat)
      requires Valid()
      modifies this
      ensures Valid() && View() == PerformRecovery(old(View()), point)
    {
      TruncateMemoryToPoint(point);
      SetAgentStateTo(AwaitingUserInput);
      AddEvent(Plain(LoopDetection, Environment));
    }

    method RestartWithLastUserMessage(point: nat)
      requires Valid()
      modifies this
      ensures Valid() && View() == Restart(old(View()), point)
    {
      var last := None;
      var n: nat := |history|;
      while n > 0 && last.None?
        invariant View() == old(View()) && n <= |history|
        invariant last.None? ==> LastUserMessage(View(), |history|) == LastUserMessage(View(), n)
        invariant last.Some? ==> LastUserMessage(View(), |history|) == last
      {
        var h := history[n - 1];
        if h < |stream| && IsUserMessage(stream[h]) {
          last := Some(stream[h].body.text);
        }
        n := n - 1;
      }
      if last.Some? {
        TruncateMemoryToPoint(point);
        SetAgentStateTo(Running);
        AddEvent(Plain(LoopDetection, Environment));
        HandleMessageAction(last.value, false, User);
      } else {
        PerformLoopRecovery(point);
      }
    }

    method HandleAction(e: Event)
      requires Valid()
      modifies this
      ensures Valid() && View() == Controller.HandleAction(old(View()), e)
    {
      match e.body
      case ChangeState(to) => SetAgentStateTo(to);
      case Message(text, waits) => HandleMessageAction(text, waits, e.source);
      case Finish => SetAgentStateTo(Finished);
      case RejectTask => SetAgentStateTo(Rejected);
      case LoopRecovery(option) =>
        if analysis.Some? {
          if option == 1 {
            PerformLoopRecovery(analysis.value);
          } else if option == 2 {
            RestartWithLastUserMessage(analysis.value);
          } else if option == 3 {
            SetAgentStateTo(Stopped);
          }
        }
      case _ =>
    }

    /** _step, for a step of the agent that turns out as `o` says. */
    method Step(o: Oracle)
      requires Valid()
      modifies this
      ensures Valid() && View() == Controller.Step(config, old(View()), o)
    {
      if agentState != Running || pendingAction.Some? {
        return;
      }
      if o.outcome.Loop? {
        analysis := Some(o.outcome.start);
        SetAgentStateTo(Error);
        return;
      }
      if o.cleared {
        analysis := None;
      }
      match o.outcome
      case LimitHit => SetAgentStateTo(Error);
      case Acts(action, assessed) => SendAction(Prepared(config, action, assessed));
      case Malformed(text) => AddEvent(Plain(ErrorObservation(text), Agent));
      case ContextFull => AddEvent(Plain(CondensationRequest, Agent));
      case Raises(rateLimited) => SetAgentStateTo(if rateLimited then RateLimited else Error);
    }

    /** The last part of _step. */
    method SendAction(e: Event)
      requires Valid()
      modifies this
      ensures Valid() && View() == SendOut(old(View()), e)
    {
      if !e.body.NullAction? {
        if e.confirmation == Awaiting {
          SetAgentStateTo(AwaitingUserConfirmation);
        }
        if IsRunnable(e) {
          AddPending(e, true);
        } else {
          AddEvent(e);
        }
      }
    }

    method OnEvent(i: nat, o: Oracle)
      requires Valid() && i < |stream|
      modifies this
      ensures Valid() && View() == Controller.OnEvent(config, old(View()), i, o)
    {
      var e := stream[i];
      if e.hidden {
        return;
      }
      if InHistory(e) {
        history := history + [i];
      }
      if IsObservation(e) {
        HandleObservation(e);
      } else {
        HandleAction(e);
      }
      if ShouldStep(agentState, e) {
        Step(o);
      }
    }

    method Close()
      requires Valid()
      modifies this
      ensures Valid() && View() == SetState(old(View()), Stopped).(closed := true)
    {
      SetAgentStateTo(Stopped);
      closed := true;
    }
  }
}
