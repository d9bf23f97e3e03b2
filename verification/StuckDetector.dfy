/** The stuck detector as the object it is: every scan is a loop, and what it finds is what StuckPatterns
    defines. */
module StuckDetector {
  import opened Util
  import opened StuckPatterns

  /** One scan from the end collects the latest `k` actions and the latest `k` observations. */
  method CollectLatest(f: seq<Event>, k: nat) returns (actions: seq<Event>, observations: seq<Event>)
    ensures actions == Window(f, IsAction, k) && observations == Window(f, IsObservation, k)
  {
    hide Window, Filtered;
    actions, observations := [], [];
    var n: nat := |f|;
    WindowOfNone<Event>(IsAction, k);
    WindowOfNone<Event>(IsObservation, k);
    assert f[n..] == [];
    while n > 0
      invariant n <= |f|
      invariant actions == Window(f[n..], IsAction, k) && observations == Window(f[n..], IsObservation, k)
    {
      n := n - 1;
      WindowCons(f[n], f[n + 1..], IsAction, k);
      WindowCons(f[n], f[n + 1..], IsObservation, k);
      assert f[n..] == [f[n]] + f[n + 1..];
      if IsAction(f[n]) && |actions| < k {
        actions := actions + [f[n]];
      } else if IsObservation(f[n]) && |observations| < k {
        observations := observations + [f[n]];
      }
      if |actions| == k && |observations| == k {
        assert f == f[..n] + f[n..];
        WindowOfSuffix(f[..n], f[n..], IsAction, k);
        WindowOfSuffix(f[..n], f[n..], IsObservation, k);
        return;
      }
    }
    assert f[0..] == f;
  }

  /** The positions of the events that satisfy `p`, as enumerate yields them. */
  method CollectPositions(f: seq<Event>, p: Event -> bool) returns (c: seq<nat>)
    ensures c == Indices(f, p)
  {
    c := [];
    for i := 0 to |f|
      invariant c == Indices(f[..i], p)
    {
      assert f[..i + 1][..i] == f[..i];
      if p(f[i]) {
        c := c + [i];
      }
    }
    assert f[..|f|] == f;
  }

  class StuckDetector {
    var history: seq<Event>
    var stuckAnalysis: Option<Analysis>
    const syntaxLoop: seq<Event> -> bool

    constructor (history: seq<Event>, syntaxLoop: seq<Event> -> bool)
      ensures this.history == history && stuckAnalysis == None && this.syntaxLoop == syntaxLoop
    {
      this.history, this.syntaxLoop := history, syntaxLoop;
      stuckAnalysis := None;
    }

    method AfterLastUser() returns (n: nat)
      ensures n == AfterLastUserMessage(history)
    {
      n := |history|;
      while n > 0 && !IsUserMessage(history[n - 1])
        invariant n <= |history| && AfterLastUserMessage(history) == AfterLastUserMessage(history[..n])
      {
        assert history[..n][..n - 1] == history[..n - 1];
        n := n - 1;
      }
      assert n > 0 ==> history[..n][|history[..n]| - 1] == history[n - 1];
    }

    method IsStuck(headless: bool) returns (stuck: bool)
      modifies this`stuckAnalysis
      ensures stuck == Report(history, headless, syntaxLoop).Some?
      ensures stuckAnalysis == Analysed(old(stuckAnalysis), history, headless, syntaxLoop)
    {
      hide RepeatedPairAt, RepeatedErrorAt, MonologueAt, PatternAt, ContextWindowAt, Filtered, Window;
      var offset := 0;
      if !headless {
        offset := AfterLastUser();
      }
      var f := Relevant(history[offset..]);
      if |f| < 3 {
        return false;
      }
      var actions, observations := CollectLatest(f, 4);
      stuck := IsRepeatingPair(f, actions, observations, offset);
      if stuck { return; }
      stuck := IsRepeatingError(f, actions, observations, offset);
      if stuck { return; }
      stuck := IsMonologue(f, offset);
      if stuck { return; }
      if |f| >= 6 {
        stuck := IsPattern(f, offset);
        if stuck { return; }
      }
      if |f| >= 10 {
        stuck := IsContextWindowError(f, offset);
        if stuck { return; }
      }
      stuckAnalysis := None;
      stuck := false;
    }

    static method Relevant(h: seq<Event>) returns (f: seq<Event>)
      ensures f == Filtered(h, IsRelevant)
    {
      f := [];
      for i := 0 to |h|
        invariant f == Filtered(h[..i], IsRelevant)
      {
        assert h[..i + 1][..i] == h[..i];
        if IsRelevant(h[i]) {
          f := f + [h[i]];
        }
      }
      assert h[..|h|] == h;
    }

    method IsRepeatingPair(f: seq<Event>, actions: seq<Event>, observations: seq<Event>, offset: nat)
      returns (stuck: bool)
      requires actions == Window(f, IsAction, 4) && observations == Window(f, IsObservation, 4)
      modifies this`stuckAnalysis
      ensures stuck == RepeatedPairAt(f).Some?
      ensures stuckAnalysis == if stuck then Moved(RepeatedPairAt(f), offset) else old(stuckAnalysis)
    {
      stuck := |actions| == 4 && |observations| == 4 && AllLikeFirst(actions) && AllLikeFirst(observations);
      if stuck {
        stuckAnalysis := Some(Analysis(RepeatedPair, 4, StartOf(f, 4) + offset));
      }
    }

    method IsRepeatingError(f: seq<Event>, actions: seq<Event>, observations: seq<Event>, offset: nat)
      returns (stuck: bool)
      requires actions == Window(f, IsAction, 4) && observations == Window(f, IsObservation, 4)
      modifies this`stuckAnalysis
      ensures stuck == RepeatedErrorAt(f, syntaxLoop).Some?
      ensures stuckAnalysis == if stuck then Moved(RepeatedErrorAt(f, syntaxLoop), offset) else old(stuckAnalysis)
    {
      if |actions| < 3 || |observations| < 3 {
        return false;
      }
      stuck := AllLikeFirst(actions[..3]) && AreErrors(observations[..3], syntaxLoop);
      if stuck {
        stuckAnalysis := Some(Analysis(RepeatedError, 3, StartOf(f, 4) + offset));
      }
    }

    method IsMonologue(f: seq<Event>, offset: nat) returns (stuck: bool)
      modifies this`stuckAnalysis
      ensures stuck == MonologueAt(f).Some?
      ensures stuckAnalysis == if stuck then Moved(MonologueAt(f), offset) else old(stuckAnalysis)
    {
      var m := CollectPositions(f, IsAgentMessage);
      if |m| < 3 {
        return false;
      }
      var i, j, k := m[|m| - 3], m[|m| - 2], m[|m| - 1];
      if f[i].content != f[j].content || f[i].content != f[k].content {
        return false;
      }
      var q := i + 1;
      while q < k && !IsObservation(f[q])
        invariant i < q && forall r :: i < r < q && r < k ==> !IsObservation(f[r])
      {
        q := q + 1;
      }
      stuck := q >= k;
      if stuck {
        stuckAnalysis := Some(Analysis(Monologue, 3, i + offset));
      }
    }

    method IsPattern(f: seq<Event>, offset: nat) returns (stuck: bool)
      modifies this`stuckAnalysis
      ensures stuck == PatternAt(f).Some?
      ensures stuckAnalysis == if stuck then Moved(PatternAt(f), offset) else old(stuckAnalysis)
    {
      hide EqNoPid;
      var actions, observations := CollectLatest(f, 6);
      stuck := |actions| == 6 && |observations| == 6 && Alternates(actions) && Alternates(observations);
      if stuck {
        stuckAnalysis := Some(Analysis(Pattern, 3, StartOf(f, 6) + offset));
      }
    }

    method IsContextWindowError(f: seq<Event>, offset: nat) returns (stuck: bool)
      modifies this`stuckAnalysis
      ensures stuck == ContextWindowAt(f).Some?
      ensures stuckAnalysis == if stuck then Moved(ContextWindowAt(f), offset) else old(stuckAnalysis)
    {
      hide Indices, IsCondensation;
      var c := CollectPositions(f, IsCondensation);
      if |c| < 10 {
        return false;
      }
      var i := |c| - 10;
      while i < |c| - 1
        invariant |c| - 10 <= i <= |c| - 1
        invariant FirstTight(f, c, |c| - 10) == FirstTight(f, c, i)
        invariant stuckAnalysis == old(stuckAnalysis)
      {
        var q := c[i] + 1;
        while q < c[i + 1] && IsCondensation(f[q])
          invariant c[i] < q && forall r :: c[i] < r < q && r < c[i + 1] ==> IsCondensation(f[r])
        {
          q := q + 1;
        }
        if q >= c[i + 1] {
          assert IsTight(f, c, i);
          stuckAnalysis := Some(Analysis(ContextWindow, 2, c[i] + offset));
          return true;
        }
        assert !IsTight(f, c, i);
        i := i + 1;
      }
      stuck := false;
    }
  }
}
