/** Replay of a recorded trajectory: which events are kept, and that the controller is handed exactly
    their actions. */
module Replay {
  import opened Util

  datatype Source = Agent | User | Environment

  datatype Kind = Message | OtherAction | NullObservation | OtherObservation

  /** An event is an object: a replay manager overwrites its flag in place. */
  class ReplayEvent {
    const kind: Kind
    const source: Source
    var waitForResponse: bool

    constructor (kind: Kind, source: Source, waitForResponse: bool)
      ensures this.kind == kind && this.source == source && this.waitForResponse == waitForResponse
    {
      this.kind, this.source, this.waitForResponse := kind, source, waitForResponse;
    }
  }

  predicate IsAction(e: ReplayEvent) {
    e.kind.Message? || e.kind.OtherAction?
  }

  predicate IsReplayed(e: ReplayEvent) {
    !e.source.Environment? && !e.kind.NullObservation?
  }

  /** The first position from `i` on that satisfies `p`, or the end. */
  function Next<T>(xs: seq<T>, p: T -> bool, i: nat): (n: nat)
    requires i <= |xs|
    ensures i <= n <= |xs|
    ensures n < |xs| ==> p(xs[n])
    ensures forall j :: i <= j < n ==> !p(xs[j])
    decreases |xs| - i
  {
    if i < |xs| && !p(xs[i]) then Next(xs, p, i + 1) else i
  }

  /** What alternating should_replay and step hands out from position `i` on. */
  function Delivered<T>(xs: seq<T>, p: T -> bool, i: nat): seq<T>
    requires i <= |xs|
    decreases |xs| - i
  {
    var n := Next(xs, p, i);
    if n < |xs| then [xs[n]] + Delivered(xs, p, n + 1) else []
  }

  /** It hands out exactly the elements that satisfy `p`, in order and once each. */
  lemma {:induction false} DeliveredIsFiltered<T>(xs: seq<T>, p: T -> bool, i: nat)
    requires i <= |xs|
    ensures Delivered(xs, p, i) == Filtered(xs[i..], p)
    decreases |xs| - i
  {
    if i < |xs| {
      DeliveredIsFiltered(xs, p, i + 1);
      assert xs[i..] == [xs[i]] + xs[i + 1..];
      FilteredCons(xs[i], xs[i + 1..], p);
    }
  }

  /** What is kept: everything that neither the environment issued nor is a null observation. */
  lemma KeptExactly(events: seq<ReplayEvent>)
    ensures forall e :: e in Filtered(events, IsReplayed) <==>
                          e in events && e.source != Environment && e.kind != NullObservation
  {
    FilteredFrom(events, IsReplayed);
    FilteredSatisfies(events, IsReplayed);
    forall i | 0 <= i < |events| && IsReplayed(events[i]) ensures events[i] in Filtered(events, IsReplayed) {
      var j := FilteredKeeps(events, IsReplayed, i);
    }
  }

  /** What is handed out: the messages and the other actions. */
  lemma HandedOutExactly(events: seq<ReplayEvent>)
    ensures forall e :: e in Filtered(events, IsAction) <==> e in events && (e.kind == Message || e.kind == OtherAction)
  {
    FilteredFrom(events, IsAction);
    FilteredSatisfies(events, IsAction);
    forall i | 0 <= i < |events| && IsAction(events[i]) ensures events[i] in Filtered(events, IsAction) {
      var j := FilteredKeeps(events, IsAction, i);
    }
  }

  class ReplayManager {
    var replayEvents: seq<ReplayEvent>
    var replayMode: bool
    var replayIndex: nat

    predicate Valid()
      reads this
    {
      replayIndex <= |replayEvents| && (replayMode <==> replayEvents != [])
    }

    /** The actions still to be handed out. */
    ghost function Remaining(): seq<ReplayEvent>
      reads this
      requires Valid()
    {
      Filtered(replayEvents[replayIndex..], IsAction)
    }

    /** Keeps what the user or the agent issued, and lets no message but a final one wait for a
        response.  An object that occurs several times is overwritten for all of them. */
    constructor (events: seq<ReplayEvent>)
      modifies (set e | e in events)`waitForResponse
      ensures Valid() && replayEvents == Filtered(events, IsReplayed) && replayIndex == 0
      ensures Remaining() == Filtered(replayEvents, IsAction)
      ensures forall e :: e in replayEvents <==> e in events && e.source != Environment && e.kind != NullObservation
      ensures forall e :: e in events ==>
                e.waitForResponse == (old(e.waitForResponse)
                    && !(e.kind.Message? && replayEvents != [] && e in replayEvents[..|replayEvents| - 1]))
    {
      replayEvents, replayMode, replayIndex := [], false, 0;
      new;
      for i := 0 to |events|
        invariant replayEvents == Filtered(events[..i], IsReplayed) && replayIndex == 0
        invariant forall e :: e in events ==> e.waitForResponse == old(e.waitForResponse)
      {
        assert events[..i + 1][..i] == events[..i];
        if IsReplayed(events[i]) {
          replayEvents := replayEvents + [events[i]];
        }
      }
      assert events[..|events|] == events;
      FilteredFrom(events, IsReplayed);
      KeptExactly(events);
      if replayEvents != [] {
        for index := 0 to |replayEvents| - 1
          invariant replayEvents == Filtered(events, IsReplayed) && replayIndex == 0
          invariant forall e :: e in replayEvents ==> e in events
          invariant forall e :: e in events ==>
                      e.waitForResponse == (old(e.waitForResponse) && !(e.kind.Message? && e in replayEvents[..index]))
        {
          var event := replayEvents[index];
          assert replayEvents[..index + 1] == replayEvents[..index] + [event];
          if event.kind.Message? && event.waitForResponse {
            event.waitForResponse := false;
          }
        }
      }
      replayMode := replayEvents != [];
    }

    predicate Replayable()
      reads this
    {
      replayIndex < |replayEvents| && IsAction(replayEvents[replayIndex])
    }

    /** Moves to the next action; a second call moves no further. */
    method ShouldReplay() returns (should: bool)
      requires Valid()
      modifies this`replayIndex
      ensures Valid() && replayIndex == (if replayMode then Next(replayEvents, IsAction, old(replayIndex))
                else old(replayIndex))
      ensures should == Replayable() == (Remaining() != [])
      ensures Remaining() == old(Remaining())
      ensures should ==> replayEvents[replayIndex] == Remaining()[0]
      ensures old(Replayable()) ==> replayIndex == old(replayIndex)
    {
      RemainingIsDelivered();
      if !replayMode {
        return false;
      }
      while replayIndex < |replayEvents| && !Replayable()
        invariant Valid() && replayMode
        invariant Next(replayEvents, IsAction, replayIndex) == Next(replayEvents, IsAction, old(replayIndex))
      {
        replayIndex := replayIndex + 1;
      }
      RemainingIsDelivered();
      should := Replayable();
    }

    /** Without an action to hand out step raises an error, here None. */
    method Step() returns (event: Option<ReplayEvent>)
      requires Valid()
      modifies this`replayIndex
      ensures Valid()
      ensures event == if old(Replayable()) then Some(replayEvents[old(replayIndex)]) else None
      ensures replayIndex == old(replayIndex) + (if event.Some? then 1 else 0)
      ensures event.Some? ==> old(Remaining()) == [event.value] + Remaining()
    {
      if !Replayable() {
        return None;
      }
      RemainingIsDelivered();
      event := Some(replayEvents[replayIndex]);
      replayIndex := replayIndex + 1;
      RemainingIsDelivered();
    }

    lemma RemainingIsDelivered()
      requires Valid()
      ensures Remaining() == Delivered(replayEvents, IsAction, replayIndex)
    {
      DeliveredIsFiltered(replayEvents, IsAction, replayIndex);
    }

    /** The controller's steps during a replay: they are given exactly the actions of the kept events, in
        order and once each, and from then on should_replay stays false. */
    method ReplayAll() returns (actions: seq<ReplayEvent>)
      requires Valid()
      modifies this`replayIndex
      ensures Valid() && actions == old(Remaining()) && Remaining() == []
    {
      hide *;
      actions := [];
      var should := ShouldReplay();
      while should
        invariant Valid() && should == Replayable() == (Remaining() != [])
        invariant actions + Remaining() == old(Remaining())
        decreases |replayEvents| - replayIndex
      {
        var event := Step();
        actions := actions + [event.value];
        should := ShouldReplay();
      }
    }
  }
}
