/** When exactly the agent is reported stuck, said from the events at the end of the history. */
module StuckLaws {
  import opened Util
  import opened StuckPatterns
  import opened StuckTheorems

  // ----- the five loops -----

  /** The last four actions agree pairwise, and so do the last four observations. */
  ghost predicate PairRepeats(f: seq<Event>) {
    var actions, observations := Window(f, IsAction, 4), Window(f, IsObservation, 4);
    |actions| == 4 && |observations| == 4 && Agree(actions) && Agree(observations)
  }

  /** The last three actions agree pairwise, and the last three observations are all errors, or all outputs
      of cells that show the same syntax error. */
  ghost predicate FailureRepeats(f: seq<Event>, syntaxLoop: seq<Event> -> bool) {
    var actions, observations := Window(f, IsAction, 3), Window(f, IsObservation, 3);
    && |actions| == 3 && |observations| == 3 && Agree(actions)
    && (|| (forall i :: 0 <= i < 3 ==> observations[i].content.ErrorOutput?)
        || ((forall i :: 0 <= i < 3 ==> observations[i].content.IPythonOutput?) && syntaxLoop(observations)))
  }

  /** `i` is the position of the third-last message of the agent and `k` of its last, all three are equal,
      and nothing is observed between them. */
  ghost predicate MessageRepeatsAt(f: seq<Event>, i: nat, j: nat, k: nat) {
    && i < j < k < |f|
    && (forall q :: i <= q < |f| ==> (IsAgentMessage(f[q]) <==> q == i || q == j || q == k))
    && f[i].content == f[j].content == f[k].content
    && (forall q :: i < q < k ==> !IsObservation(f[q]))
  }

  ghost predicate MessageRepeats(f: seq<Event>) {
    exists i, j, k :: MessageRepeatsAt(f, i, j, k)
  }

  /** Of six events, the first, third and fifth agree pairwise, and so do the others. */
  ghost predicate EveryOtherAgrees(es: seq<Event>) {
    |es| == 6 && Agree([es[0], es[2], es[4]]) && Agree([es[1], es[3], es[5]])
  }

  /** Two pairs have taken turns in the last six actions and the last six observations. */
  ghost predicate PairsAlternate(f: seq<Event>) {
    EveryOtherAgrees(Window(f, IsAction, 6)) && EveryOtherAgrees(Window(f, IsObservation, 6))
  }

  /** Two of the last ten condensations are neighbours. */
  ghost predicate CondensationsMeet(f: seq<Event>) {
    var c := Indices(f, IsCondensation);
    |c| >= 10 && exists i :: |c| - 10 <= i < |c| - 1 && c[i] + 1 == c[i + 1]
  }

  // ----- each scenario finds exactly its loop -----

  lemma AgreeMeansLikeFirst(es: seq<Event>)
    ensures AllLikeFirst(es) <==> Agree(es)
  {
    if AllLikeFirst(es) { LikeFirstMeansPairwise(es); }
  }

  lemma WindowPrefix(f: seq<Event>, p: Event -> bool)
    ensures var w3, w4 := Window(f, p, 3), Window(f, p, 4);
            (|w4| >= 3 <==> |w3| == 3) && (|w4| >= 3 ==> w4[..3] == w3)
  {
    WindowAtIndices(f, p, 3);
    WindowAtIndices(f, p, 4);
  }

  lemma RepeatedPairExactlyWhen(f: seq<Event>)
    ensures RepeatedPairAt(f).Some? <==> PairRepeats(f)
  {
    hide AllLikeFirst, Agree;
    AgreeMeansLikeFirst(Window(f, IsAction, 4));
    AgreeMeansLikeFirst(Window(f, IsObservation, 4));
  }

  /** Scenario 2: three agreeing actions and three errors. */
  lemma RepeatedErrorExactlyWhen(f: seq<Event>, syntaxLoop: seq<Event> -> bool)
    ensures RepeatedErrorAt(f, syntaxLoop).Some? <==> FailureRepeats(f, syntaxLoop)
  {
    hide AllLikeFirst, Agree, Window;
    WindowPrefix(f, IsAction);
    WindowPrefix(f, IsObservation);
    AgreeMeansLikeFirst(Window(f, IsAction, 3));
  }

  lemma LastThree(f: seq<Event>, p: Event -> bool)
    requires |Indices(f, p)| >= 3
    ensures var m := Indices(f, p); var i, j, k := m[|m| - 3], m[|m| - 2], m[|m| - 1];
            i < j < k < |f| && forall q :: i <= q < |f| ==> (p(f[q]) <==> q == i || q == j || q == k)
  {
    var m := Indices(f, p);
    IndicesAscend(f, p);
    forall q | m[|m| - 3] <= q < |f| && p(f[q]) ensures q == m[|m| - 3] || q == m[|m| - 2] || q == m[|m| - 1] {
      IndicesAreAll(f, p, q);
      var n :| 0 <= n < |m| && m[n] == q;
      assert n >= |m| - 3;
    }
  }

  lemma AreLastThree(f: seq<Event>, p: Event -> bool, i: nat, j: nat, k: nat)
    requires i < j < k < |f| && forall q :: i <= q < |f| ==> (p(f[q]) <==> q == i || q == j || q == k)
    ensures var m := Indices(f, p); |m| >= 3 && m[|m| - 3] == i && m[|m| - 2] == j && m[|m| - 1] == k
  {
    var m := Indices(f, p);
    IndicesAscend(f, p);
    IndicesAreAll(f, p, i);
    IndicesAreAll(f, p, j);
    IndicesAreAll(f, p, k);
    var a :| 0 <= a < |m| && m[a] == i;
    var b :| 0 <= b < |m| && m[b] == j;
    var c :| 0 <= c < |m| && m[c] == k;
    assert a < b < c;
    LastThree(f, p);
  }

  /** Scenario 3: three equal messages of the agent with nothing observed in between. */
  lemma MonologueExactlyWhen(f: seq<Event>)
    ensures MonologueAt(f).Some? <==> MessageRepeats(f)
  {
    hide Indices;
    var m := Indices(f, IsAgentMessage);
    if MonologueAt(f).Some? {
      LastThree(f, IsAgentMessage);
      assert MessageRepeatsAt(f, m[|m| - 3], m[|m| - 2], m[|m| - 1]);
    }
    if MessageRepeats(f) {
      var i, j, k :| MessageRepeatsAt(f, i, j, k);
      AreLastThree(f, IsAgentMessage, i, j, k);
    }
  }

  lemma AgreeOfThree(a: Event, b: Event, c: Event)
    ensures Agree([a, b, c]) <== EqNoPid(a, b) && EqNoPid(a, c)
    ensures Agree([a, b, c]) ==> EqNoPid(a, b) && EqNoPid(a, c)
  {
    var es := [a, b, c];
    if EqNoPid(a, b) && EqNoPid(a, c) {
      EqNoPidIsPartialEquivalence(a, b, a);
      LikeFirstMeansPairwise(es);
    }
    if Agree(es) {
      assert EqNoPid(es[0], es[1]) && EqNoPid(es[0], es[2]);
    }
  }

  lemma AlternatesExactlyWhen(es: seq<Event>)
    requires |es| == 6
    ensures Alternates(es) <==> EveryOtherAgrees(es)
  {
    hide EqNoPid, Agree;
    AgreeOfThree(es[0], es[2], es[4]);
    AgreeOfThree(es[1], es[3], es[5]);
  }

  /** Scenario 4: two pairs taking turns. */
  lemma PatternExactlyWhen(f: seq<Event>)
    ensures PatternAt(f).Some? <==> PairsAlternate(f)
  {
    hide Window, Alternates, Agree;
    var actions, observations := Window(f, IsAction, 6), Window(f, IsObservation, 6);
    if |actions| == 6 { AlternatesExactlyWhen(actions); }
    if |observations| == 6 { AlternatesExactlyWhen(observations); }
  }

  // ----- what is looked at -----

  /** In which positions of the history the events looked at stand: all from the last user message on, or in
      headless mode all, that are no message of the user, no null action and no null observation. */
  lemma LookedAtExactly(h: seq<Event>, headless: bool) returns (from: nat, ix: seq<nat>)
    ensures from <= |h| && (headless ==> from == 0)
    ensures !headless && from > 0 ==> IsFromUser(h[from - 1])
    ensures !headless ==> forall i :: from <= i < |h| ==> !IsFromUser(h[i])
    ensures IsAscending(ix) && |ix| == |Looked(h, headless)|
    ensures forall j :: 0 <= j < |ix| ==> ix[j] < |h| && Looked(h, headless)[j] == h[ix[j]]
    ensures forall i :: i in ix <==>
              from <= i < |h| && !IsFromUser(h[i]) && !h[i].content.NullAction? && !h[i].content.NullObservation?
  {
    from := Offset(h, headless);
    var rest := h[from..];
    var r := Indices(rest, IsRelevant);
    FilteredAtIndices(rest, IsRelevant);
    IndicesAscend(rest, IsRelevant);
    IndicesAreExactly(rest, IsRelevant);
    ix := Shifted(r, from);
  }

  predicate IsFromUser(e: Event) {
    e.content.Message? && e.source == User
  }

  function Shifted(ix: seq<nat>, n: nat): (r: seq<nat>)
    ensures |r| == |ix| && forall j :: 0 <= j < |ix| ==> r[j] == ix[j] + n
    ensures IsAscending(ix) ==> IsAscending(r)
    ensures forall i :: i in r <==> i >= n && i - n in ix
  {
    var r: seq<nat> := seq(|ix|, j requires 0 <= j < |ix| => ix[j] + n);
    assert forall j :: 0 <= j < |ix| ==> r[j] == ix[j] + n && r[j] in r;
    r
  }

  lemma IndicesAreExactly(xs: seq<Event>, p: Event -> bool)
    ensures forall i: nat :: i in Indices(xs, p) <==> i < |xs| && p(xs[i])
  {
    forall i: nat | i < |xs| && p(xs[i]) ensures i in Indices(xs, p) {
      IndicesAreAll(xs, p, i);
    }
  }

  // ----- the report -----

  /** The agent is reported stuck if and only if one of the five loops stands at the end of what is looked
      at; the report names the first that does and how often it takes. */
  lemma StuckExactlyWhen(h: seq<Event>, headless: bool, syntaxLoop: seq<Event> -> bool)
    ensures var f, r := Looked(h, headless), Report(h, headless, syntaxLoop);
            && (r.Some? <==> PairRepeats(f) || FailureRepeats(f, syntaxLoop) || MessageRepeats(f) || PairsAlternate(f)
                             || CondensationsMeet(f))
            && (r.Some? ==>
                  (r.value.loopType, r.value.times) ==
                  if PairRepeats(f) then (RepeatedPair, 4)
                  else if FailureRepeats(f, syntaxLoop) then (RepeatedError, 3)
                  else if MessageRepeats(f) then (Monologue, 3)
                  else if PairsAlternate(f) then (Pattern, 3)
                  else (ContextWindow, 2))
  {
    hide Looked, Window, Agree, MessageRepeats, EveryOtherAgrees, Indices;
    var f := Looked(h, headless);
    RepeatedPairExactlyWhen(f);
    RepeatedErrorExactlyWhen(f, syntaxLoop);
    MonologueExactlyWhen(f);
    PatternExactlyWhen(f);
    ContextWindowFiresExactlyWhen(f);
    LoopsAreLong(f, syntaxLoop);
    TimesOfReport(f, syntaxLoop);
  }

  /** No loop fits into fewer events than is_stuck asks for. */
  lemma LoopsAreLong(f: seq<Event>, syntaxLoop: seq<Event> -> bool)
    ensures PairRepeats(f) || FailureRepeats(f, syntaxLoop) || MessageRepeats(f) ==> |f| >= 3
    ensures PairsAlternate(f) ==> |f| >= 6
    ensures CondensationsMeet(f) ==> |f| >= 10
  {
    hide Agree, Filtered, Indices;
    WindowAtIndices(f, IsAction, 3);
    WindowAtIndices(f, IsAction, 4);
    WindowAtIndices(f, IsAction, 6);
  }

  lemma TimesOfReport(f: seq<Event>, syntaxLoop: seq<Event> -> bool)
    ensures RepeatedPairAt(f).Some? ==> RepeatedPairAt(f).value.times == 4
    ensures RepeatedErrorAt(f, syntaxLoop).Some? ==> RepeatedErrorAt(f, syntaxLoop).value.times == 3
    ensures MonologueAt(f).Some? ==> MonologueAt(f).value.times == 3
    ensures PatternAt(f).Some? ==> PatternAt(f).value.times == 3
    ensures ContextWindowAt(f).Some? ==> ContextWindowAt(f).value.times == 2
  {
    hide Window, Indices, AllLikeFirst, AreErrors, Alternates, StartOf, FirstTight;
  }

  /** Any history that ends in three agreeing actions, each followed by an error, is reported, in both modes;
      so is one where each is followed by the output of a cell and the outputs show the same syntax error. */
  lemma ThreeFailuresAreReported(h: seq<Event>, actions: seq<Event>, observations: seq<Event>, headless: bool,
                                 syntaxLoop: seq<Event> -> bool)
    requires ArePairs(actions, observations) && |actions| == 3 && Agree(actions)
    requires || (forall i :: 0 <= i < 3 ==> observations[i].content.ErrorOutput?)
             || ((forall i :: 0 <= i < 3 ==> observations[i].content.IPythonOutput?)
                 && syntaxLoop([observations[2], observations[1], observations[0]]))
    ensures var r := Report(h + Interleaved(actions, observations), headless, syntaxLoop);
            r.Some? && (r.value.loopType == RepeatedPair || r.value.loopType == RepeatedError)
  {
    var all := h + Interleaved(actions, observations);
    LookedEndsInPairs(h, actions, observations, headless);
    var before :| Looked(all, headless) == before + Interleaved(actions, observations);
    WindowsOfPairs(before, actions, observations);
    hide Looked, Window, Interleaved, Report, PairRepeats, MessageRepeats, PairsAlternate, CondensationsMeet;
    assert Reversed(observations) == [observations[2], observations[1], observations[0]];
    AgreeReversed(actions);
    assert FailureRepeats(Looked(all, headless), syntaxLoop);
    StuckExactlyWhen(all, headless, syntaxLoop);
  }

  lemma AgreeReversed(es: seq<Event>)
    requires Agree(es)
    ensures Agree(Reversed(es))
  {
  }

  // ----- the comparison -----

  lemma {:induction false} ContainsExactlyWhen(s: string, part: string)
    ensures Contains(s, part) <==> exists i :: 0 <= i <= |s| && part <= s[i..]
  {
    assert s[0..] == s;
    if s != "" {
      var rest := s[1..];
      ContainsExactlyWhen(rest, part);
      assert forall i :: 0 <= i <= |rest| ==> rest[i..] == s[i + 1..];
      if Contains(rest, part) {
        var i :| 0 <= i <= |rest| && part <= rest[i..];
        assert part <= s[i + 1..];
      } else if !(part <= s) {
        forall i | 0 <= i <= |s| ensures !(part <= s[i..]) {
          assert i > 0 ==> s[i..] == rest[i - 1..];
        }
      }
    }
  }

  /** The lines put together again. */
  function Joined(lines: seq<string>): string
    requires lines != []
  {
    if |lines| == 1 then lines[0] else lines[0] + "\n" + Joined(lines[1..])
  }

  /** Splitting into lines loses nothing, and no line holds a line break. */
  lemma {:induction false} LinesRoundTrip(s: string)
    ensures Joined(Lines(s)) == s && forall i :: 0 <= i < |Lines(s)| ==> '\n' !in Lines(s)[i]
  {
    if s != "" {
      LinesRoundTrip(s[1..]);
      var ls := Lines(s[1..]);
      assert s == [s[0]] + s[1..];
      if s[0] == '\n' {
        assert ([""] + ls)[1..] == ls;
      } else {
        assert ([[s[0]] + ls[0]] + ls[1..])[1..] == ls[1..];
        if |ls| > 1 {
          assert [s[0]] + (ls[0] + "\n" + Joined(ls[1..])) == ([s[0]] + ls[0]) + "\n" + Joined(ls[1..]);
        }
      }
    }
  }

  lemma FirstThreeAgree(xs: seq<string>, ys: seq<string>)
    requires |xs| >= 3
    ensures FirstThree(xs) == FirstThree(ys) <==> |ys| >= 3 && xs[0] == ys[0] && xs[1] == ys[1] && xs[2] == ys[2]
  {
    if FirstThree(xs) == FirstThree(ys) {
      assert |FirstThree(ys)| == 3;
      assert forall i :: 0 <= i < 3 ==> FirstThree(xs)[i] == xs[i] && FirstThree(ys)[i] == ys[i];
    }
  }

  /** What the comparison looks at: of two command outputs the command and the exit code, of two cells that
      both call edit_file_by_replace( the first three lines, if there are as many, and otherwise everything
      that event equality does. */
  lemma ComparedBy(a: Event, b: Event)
    ensures a.content.CmdOutput? && b.content.CmdOutput? ==>
              (EqNoPid(a, b) <==> a.content.command == b.content.command && a.content.exitCode == b.content.exitCode)
    ensures a.content.IPythonRun? && Contains(a.content.code, "edit_file_by_replace(")
              && b.content.IPythonRun? && Contains(b.content.code, "edit_file_by_replace(") ==>
              var xs, ys := Lines(a.content.code), Lines(b.content.code);
              EqNoPid(a, b) <==> |xs| >= 3 && |ys| >= 3 && xs[0] == ys[0] && xs[1] == ys[1] && xs[2] == ys[2]
    ensures a.content == b.content && !EqNoPid(a, b) ==>
              a.content.IPythonRun? && Contains(a.content.code, "edit_file_by_replace(") && |Lines(a.content.code)| <= 2
    ensures EqNoPid(a, b) && a.content != b.content ==>
              (a.content.CmdOutput? && b.content.CmdOutput?) || (a.content.IPythonRun? && b.content.IPythonRun?)
  {
    hide Lines, Contains;
    if IsEdit(a) && IsEdit(b) {
      var xs, ys := Lines(a.content.code), Lines(b.content.code);
      if |xs| >= 3 { FirstThreeAgree(xs, ys); }
    }
  }
}
