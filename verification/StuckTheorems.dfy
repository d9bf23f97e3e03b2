/** What a report of the stuck detector means, what recovery from it removes, and which loops are always
    reported. */
module StuckTheorems {
  import opened Util
  import opened StuckPatterns

  // ----- the comparison -----

  /** An edit too short to compare. */
  predicate IsShortEdit(e: Event) {
    IsEdit(e) && |Lines(e.content.code)| <= 2
  }

  /** _eq_no_pid is symmetric and transitive, and reflexive except on short edits. */
  lemma EqNoPidIsPartialEquivalence(a: Event, b: Event, c: Event)
    ensures EqNoPid(a, b) ==> EqNoPid(b, a)
    ensures EqNoPid(a, b) && EqNoPid(b, c) ==> EqNoPid(a, c)
    ensures EqNoPid(a, a) <==> !IsShortEdit(a)
  {
  }

  ghost predicate Agree(es: seq<Event>) {
    forall i, j :: 0 <= i < |es| && 0 <= j < |es| ==> EqNoPid(es[i], es[j])
  }

  lemma LikeFirstMeansPairwise(es: seq<Event>)
    requires AllLikeFirst(es)
    ensures Agree(es)
  {
    forall i, j | 0 <= i < |es| && 0 <= j < |es| ensures EqNoPid(es[i], es[j]) {
      EqNoPidIsPartialEquivalence(es[0], es[i], es[j]);
      EqNoPidIsPartialEquivalence(es[i], es[0], es[j]);
    }
  }

  /** The windows are the events at the last positions of their kind. */
  lemma WindowAtIndices(f: seq<Event>, p: Event -> bool, k: nat)
    ensures var w, ix := Window(f, p, k), Indices(f, p);
            && |w| == (if |ix| <= k then |ix| else k)
            && forall j :: 0 <= j < |w| ==> w[j] == f[ix[|ix| - 1 - j]]
  {
    FilteredAtIndices(f, p);
  }

  /** A report of scenario 1 means that the last four actions agree pairwise, and so do the last four
      observations, wherever they stand. */
  lemma RepeatedPairMeansAgreement(f: seq<Event>)
    requires RepeatedPairAt(f).Some?
    ensures |Window(f, IsAction, 4)| == 4 && Agree(Window(f, IsAction, 4))
    ensures |Window(f, IsObservation, 4)| == 4 && Agree(Window(f, IsObservation, 4))
  {
    LikeFirstMeansPairwise(Window(f, IsAction, 4));
    LikeFirstMeansPairwise(Window(f, IsObservation, 4));
  }

  // ----- recovery -----

  function LastOf(ix: seq<nat>, k: nat): seq<nat> {
    if |ix| <= k then ix else ix[|ix| - k..]
  }

  /** Those positions that stand next to another of them. */
  function Neighbours(c: seq<nat>): seq<nat> {
    Filtered(c, (x: nat) => x + 1 in c || (x > 0 && x - 1 in c))
  }

  /** The filtered positions of the actions, messages or condensations that repeat. */
  function Repetition(f: seq<Event>, t: LoopType): seq<nat> {
    match t
    case RepeatedPair => LastOf(Indices(f, IsAction), 4)
    case RepeatedError => LastOf(Indices(f, IsAction), 4)
    case Monologue => LastOf(Indices(f, IsAgentMessage), 3)
    case Pattern => LastOf(Indices(f, IsAction), 6)
    case ContextWindow => Neighbours(LastOf(Indices(f, IsCondensation), 10))
  }

  /** Where the event at a filtered position stands in the whole history. */
  function PositionOf(h: seq<Event>, headless: bool, j: nat): (p: nat)
    requires j < |Looked(h, headless)|
    ensures j + Offset(h, headless) <= p < |h| && h[p] == Looked(h, headless)[j]
  {
    FilteredAtIndices(h[Offset(h, headless)..], IsRelevant);
    Indices(h[Offset(h, headless)..], IsRelevant)[j] + Offset(h, headless)
  }

  /** How many of the events before a looked-at event are not looked at. */
  function DroppedBefore(h: seq<Event>, headless: bool, j: nat): nat
    requires j < |Looked(h, headless)|
  {
    |Filtered(h[Offset(h, headless)..PositionOf(h, headless, j)], IsFilteredOut)|
  }

  lemma PositionCountsDropped(h: seq<Event>, headless: bool, j: nat)
    requires j < |Looked(h, headless)|
    ensures PositionOf(h, headless, j) == Offset(h, headless) + j + DroppedBefore(h, headless, j)
  {
    var offset := Offset(h, headless);
    var rest := h[offset..];
    FilteredAtIndices(rest, IsRelevant);
    IndexCountsDropped(rest, IsRelevant, IsFilteredOut, j);
    var i := Indices(rest, IsRelevant)[j];
    assert rest[..i] == h[offset..offset + i];
  }

  lemma FirstOfLast(ix: seq<nat>, k: nat)
    requires IsAscending(ix)
    ensures forall j :: 0 <= j < |LastOf(ix, k)| ==> LastOf(ix, k)[0] <= LastOf(ix, k)[j]
  {
  }

  lemma StartIsBeforeActions(f: seq<Event>, k: nat)
    requires Window(f, IsAction, k) != []
    ensures var r := LastOf(Indices(f, IsAction), k);
            r != [] && forall j :: 0 <= j < |r| ==> StartOf(f, k) <= r[j] < |f|
  {
    hide Window, Indices, IsAscending;
    WindowAtIndices(f, IsAction, k);
    IndicesAscend(f, IsAction);
    var r, w := LastOf(Indices(f, IsAction), k), Window(f, IsAction, k);
    FirstOfLast(Indices(f, IsAction), k);
    assert w[|w| - 1] == f[r[0]];
    assert StartOf(f, k) <= r[0];
  }

  lemma TightMeansAdjacent(f: seq<Event>, i: nat)
    requires i + 1 < |Indices(f, IsCondensation)|
    ensures var c := Indices(f, IsCondensation); IsTight(f, c, i) <==> c[i + 1] == c[i] + 1
  {
    var c := Indices(f, IsCondensation);
    IndicesAscend(f, IsCondensation);
    if c[i] + 1 < c[i + 1] {
      IndicesGap(f, IsCondensation, i, c[i] + 1);
    }
  }

  /** Scenario 5 fires exactly when two of the last ten condensations stand next to each other. */
  lemma ContextWindowFiresExactlyWhen(f: seq<Event>)
    ensures var c := Indices(f, IsCondensation);
            ContextWindowAt(f).Some? <==> |c| >= 10 && exists i :: |c| - 10 <= i < |c| - 1 && c[i] + 1 == c[i + 1]
    ensures ContextWindowAt(f).Some? ==>
              var s := ContextWindowAt(f).value.start;
              s + 1 < |f| && IsCondensation(f[s]) && IsCondensation(f[s + 1])
  {
    hide Indices, IsTight, FirstTight;
    var c := Indices(f, IsCondensation);
    if |c| >= 10 {
      forall i | |c| - 10 <= i < |c| - 1 ensures IsTight(f, c, i) <==> c[i] + 1 == c[i + 1] {
        TightMeansAdjacent(f, i);
      }
      var first := FirstTight(f, c, |c| - 10);
      if first.Some? {
        assert IsTight(f, c, first.value) && c[first.value + 1] == c[first.value] + 1;
        assert IsCondensation(f[c[first.value]]) && IsCondensation(f[c[first.value + 1]]);
      }
    }
  }

  ghost predicate StartsBefore(f: seq<Event>, a: Analysis) {
    var r := Repetition(f, a.loopType);
    r != [] && forall j :: 0 <= j < |r| ==> a.start <= r[j] < |f|
  }

  lemma MonologueStartsBefore(f: seq<Event>)
    requires MonologueAt(f).Some?
    ensures StartsBefore(f, MonologueAt(f).value)
  {
    IndicesAscend(f, IsAgentMessage);
    FirstOfLast(Indices(f, IsAgentMessage), 3);
  }

  lemma ActionLoopStartsBefore(f: seq<Event>, a: Analysis, k: nat)
    requires a.loopType.RepeatedPair? || a.loopType.RepeatedError? || a.loopType.Pattern?
    requires k == (if a.loopType.Pattern? then 6 else 4)
    requires Window(f, IsAction, k) != [] && a.start == StartOf(f, k)
    ensures StartsBefore(f, a)
  {
    StartIsBeforeActions(f, k);
  }

  lemma NextInAscending(ix: seq<nat>, j: nat, k: nat)
    requires IsAscending(ix) && j < |ix| && k < |ix| && ix[k] == ix[j] + 1
    ensures k == j + 1
  {
    var next := if j + 1 < |ix| then ix[j + 1] else 0;
  }

  /** Of ascending positions from index `b` on, no neighbour comes before the first adjacent pair. */
  lemma NeighbourIsAfterFirstPair(c: seq<nat>, b: nat, n: nat, x: nat)
    requires IsAscending(c) && b <= n && n + 1 < |c|
    requires forall i :: b <= i < n ==> c[i + 1] != c[i] + 1
    requires x in c[b..] && (x + 1 in c[b..] || (x > 0 && x - 1 in c[b..]))
    ensures c[n] <= x
  {
    hide IsAscending;
    var d := c[b..];
    var j :| 0 <= j < |d| && d[j] == x;
    // the first of the pair the neighbour belongs to
    var k := b + j;
    if x + 1 in d {
      var i :| 0 <= i < |d| && d[i] == x + 1;
      NextInAscending(c, b + j, b + i);
    } else {
      var i :| 0 <= i < |d| && d[i] == x - 1;
      NextInAscending(c, b + i, b + j);
      k := b + i;
    }
    PairIsAfterFirstPair(c, b, n, k);
  }

  lemma PairIsAfterFirstPair(c: seq<nat>, b: nat, n: nat, k: nat)
    requires IsAscending(c) && b <= n && n + 1 < |c| && b <= k && k + 1 < |c|
    requires forall i :: b <= i < n ==> c[i + 1] != c[i] + 1
    requires c[k + 1] == c[k] + 1
    ensures c[n] <= c[k]
  {
    assert n <= k;
  }

  lemma NeighboursOf(c: seq<nat>, x: nat)
    ensures x in Neighbours(c) <==> x in c && (x + 1 in c || (x > 0 && x - 1 in c))
  {
    var p := (x: nat) => x + 1 in c || (x > 0 && x - 1 in c);
    FilteredSatisfies(c, p);
    FilteredFrom(c, p);
    if x in c && p(x) {
      var i :| 0 <= i < |c| && c[i] == x;
      var j := FilteredKeeps(c, p, i);
    }
  }

  /** The reported start is the first neighbour among the last ten condensations. */
  lemma ContextStartsAtFirstNeighbour(f: seq<Event>)
    requires ContextWindowAt(f).Some?
    ensures var r := Neighbours(LastOf(Indices(f, IsCondensation), 10));
            r != [] && r[0] == ContextWindowAt(f).value.start
  {
    hide Indices, IsTight, FirstTight, Neighbours, IsAscending;
    var c := Indices(f, IsCondensation);
    var b := |c| - 10;
    var n := FirstTight(f, c, b).value;
    IndicesAscend(f, IsCondensation);
    forall i | b <= i < |c| - 1 ensures IsTight(f, c, i) <==> c[i + 1] == c[i] + 1 {
      TightMeansAdjacent(f, i);
    }
    assert LastOf(c, 10) == c[b..];
    FirstNeighbour(c, b, n);
  }

  lemma FirstNeighbour(c: seq<nat>, b: nat, n: nat)
    requires IsAscending(c) && b <= n && n + 1 < |c| && c[n + 1] == c[n] + 1
    requires forall i :: b <= i < n ==> c[i + 1] != c[i] + 1
    ensures Neighbours(c[b..]) != [] && Neighbours(c[b..])[0] == c[n]
  {
    var d := c[b..];
    var p := (x: nat) => x + 1 in d || (x > 0 && x - 1 in d);
    assert d[n - b] == c[n] && d[n + 1 - b] == c[n] + 1;
    forall i | 0 <= i < n - b ensures !p(d[i]) {
      assert c[b + i] < c[n];
      if p(d[i]) {
        NeighbourIsAfterFirstPair(c, b, n, d[i]);
      }
    }
    FirstOfFiltered(d, p, n - b);
  }

  /** The reported start is at or before every neighbour among the last ten condensations. */
  lemma ContextStartsBefore(f: seq<Event>)
    requires ContextWindowAt(f).Some?
    ensures StartsBefore(f, ContextWindowAt(f).value)
  {
    hide Indices, IsTight, FirstTight, Neighbours, IsAscending;
    var c := Indices(f, IsCondensation);
    var b, d := |c| - 10, LastOf(c, 10);
    var n := FirstTight(f, c, b).value;
    IndicesAscend(f, IsCondensation);
    forall i | b <= i < |c| - 1 ensures IsTight(f, c, i) <==> c[i + 1] == c[i] + 1 {
      TightMeansAdjacent(f, i);
    }
    ContextStartsAtFirstNeighbour(f);
    assert d == c[b..];
    NeighboursAreFrom(c, b, n);
  }

  lemma NeighboursAreFrom(c: seq<nat>, b: nat, n: nat)
    requires IsAscending(c) && b <= n && n + 1 < |c|
    requires forall i :: b <= i < n ==> c[i + 1] != c[i] + 1
    ensures forall j :: 0 <= j < |Neighbours(c[b..])| ==> c[n] <= Neighbours(c[b..])[j] && Neighbours(c[b..])[j] in c
  {
    var r := Neighbours(c[b..]);
    forall j | 0 <= j < |r| ensures c[n] <= r[j] && r[j] in c {
      NeighboursOf(c[b..], r[j]);
      assert r[j] in r;
      NeighbourIsAfterFirstPair(c, b, n, r[j]);
    }
  }

  lemma StartIsBeforeRepetition(f: seq<Event>, syntaxLoop: seq<Event> -> bool)
    requires Found(f, syntaxLoop).Some?
    ensures StartsBefore(f, Found(f, syntaxLoop).value)
  {
    hide RepeatedPairAt, RepeatedErrorAt, MonologueAt, PatternAt, ContextWindowAt, StartOf, Window, StartsBefore;
    if RepeatedPairAt(f).Some? {
      ActionLoopStartsBefore(f, RepeatedPairAt(f).value, 4);
    } else if RepeatedErrorAt(f, syntaxLoop).Some? {
      ActionLoopStartsBefore(f, RepeatedErrorAt(f, syntaxLoop).value, 4);
    } else if MonologueAt(f).Some? {
      MonologueStartsBefore(f);
    } else if |f| >= 6 && PatternAt(f).Some? {
      ActionLoopStartsBefore(f, PatternAt(f).value, 6);
    } else {
      ContextStartsBefore(f);
    }
  }

  /** Recovery cuts what repeats: loop_start_idx is below the length of the history, so truncating there
      keeps a proper prefix, whatever was appended in between, and every action, message or condensation
      of the repetition stands at or after it, although the index is a position in a filtered list. */
  lemma RecoveryCutsTheRepetition(h: seq<Event>, headless: bool, syntaxLoop: seq<Event> -> bool, later: seq<Event>)
    requires Report(h, headless, syntaxLoop).Some?
    ensures var a, f := Report(h, headless, syntaxLoop).value, Looked(h, headless);
            var r := Repetition(f, a.loopType);
            && Offset(h, headless) <= a.start < |h|
            && (h + later)[..a.start] < h
            && r != []
            && (forall i :: 0 <= i < |r| ==> r[i] < |f| && a.start <= PositionOf(h, headless, r[i]))
  {
    var f := Looked(h, headless);
    var a := Found(f, syntaxLoop).value;
    StartIsBeforeRepetition(f, syntaxLoop);
    var start := a.start + Offset(h, headless);
    assert start <= PositionOf(h, headless, Repetition(f, a.loopType)[0]) < |h|;
    assert (h + later)[..start] == h[..start];
  }

  /** For a loop of actions even more goes: of what recovery keeps since the last user message, nothing
      equals the earliest action of the repetition. */
  lemma NothingKeptEqualsTheLoopsAction(h: seq<Event>, headless: bool, syntaxLoop: seq<Event> -> bool, q: nat)
    requires Report(h, headless, syntaxLoop).Some?
    requires var t := Report(h, headless, syntaxLoop).value.loopType; t.RepeatedPair? || t.RepeatedError? || t.Pattern?
    requires Offset(h, headless) <= q < Report(h, headless, syntaxLoop).value.start <= |h| && IsRelevant(h[q])
    ensures var f := Looked(h, headless);
            var k := if Report(h, headless, syntaxLoop).value.loopType.Pattern? then 6 else 4;
            var actions := Window(f, IsAction, k);
            actions != [] && h[q].content != actions[|actions| - 1].content
  {
    hide RepeatedPairAt, RepeatedErrorAt, MonologueAt, PatternAt, ContextWindowAt;
    var offset, f := Offset(h, headless), Looked(h, headless);
    var rest := h[offset..];
    var j := FilteredKeeps(rest, IsRelevant, q - offset);
    assert f[j] == h[q] && j < Found(f, syntaxLoop).value.start;
  }

  lemma SmallerIsEarlier(ix: seq<nat>, j: nat, k: nat)
    requires IsAscending(ix) && j < |ix| && k < |ix| && ix[j] < ix[k]
    ensures j < k
  {
  }

  /** The first looked-at event with a property is kept exactly when anything with it is kept. */
  lemma KeptExactlyWhen(h: seq<Event>, headless: bool, p: Event -> bool, first: nat, start: nat)
    requires first < |Looked(h, headless)| && p(Looked(h, headless)[first])
    requires forall j :: 0 <= j < first ==> !p(Looked(h, headless)[j])
    requires forall e :: p(e) ==> IsRelevant(e)
    requires start <= |h|
    ensures (forall q :: Offset(h, headless) <= q < start ==> !p(h[q])) <==> start <= PositionOf(h, headless, first)
  {
    var offset, f := Offset(h, headless), Looked(h, headless);
    var rest := h[offset..];
    var ix := Indices(rest, IsRelevant);
    FilteredAtIndices(rest, IsRelevant);
    IndicesAscend(rest, IsRelevant);
    if start <= PositionOf(h, headless, first) {
      forall q | offset <= q < start ensures !p(h[q]) {
        if IsRelevant(h[q]) {
          IndicesAreAll(rest, IsRelevant, q - offset);
          var j :| 0 <= j < |ix| && ix[j] == q - offset;
          SmallerIsEarlier(ix, j, first);
          assert f[j] == h[q];
        }
      }
    } else {
      var q := PositionOf(h, headless, first);
      assert offset <= q < start && p(h[q]);
    }
  }

  /** Recovery from a monologue keeps no copy of the repeated message since the last user message exactly
      when the third-last agent message looked at is no further behind the first copy than the number of
      events dropped before that copy. */
  lemma MonologueKeepsNoCopyExactlyWhen(h: seq<Event>, headless: bool, syntaxLoop: seq<Event> -> bool)
    requires Report(h, headless, syntaxLoop).Some? && Report(h, headless, syntaxLoop).value.loopType == Monologue
    ensures var f := Looked(h, headless); var m := Indices(f, IsAgentMessage);
            && |m| >= 3 && Report(h, headless, syntaxLoop).value.start <= |h|
            && var third := m[|m| - 3]; var first := FirstEqual(f, f[third]);
            (forall q :: Offset(h, headless) <= q < Report(h, headless, syntaxLoop).value.start ==>
                           !(IsRelevant(h[q]) && h[q].content == f[third].content))
            <==> third - first <= DroppedBefore(h, headless, first)
  {
    hide Found, Indices, DroppedBefore, PositionOf, Looked;
    var f, start := Looked(h, headless), Report(h, headless, syntaxLoop).value.start;
    RecoveryCutsTheRepetition(h, headless, syntaxLoop, []);
    FoundMonologue(f, syntaxLoop);
    var m := Indices(f, IsAgentMessage);
    var repeated := f[m[|m| - 3]];
    var first := FirstEqual(f, repeated);
    PositionCountsDropped(h, headless, first);
    var p := (e: Event) => IsRelevant(e) && e.content == repeated.content;
    LookedIsRelevant(h, headless);
    KeptExactlyWhen(h, headless, p, first, start);
    assert forall q :: Offset(h, headless) <= q < start ==>
                         (p(h[q]) <==> IsRelevant(h[q]) && h[q].content == repeated.content);
  }

  lemma LookedIsRelevant(h: seq<Event>, headless: bool)
    ensures forall e :: e in Looked(h, headless) ==> IsRelevant(e)
  {
    FilteredSatisfies(h[Offset(h, headless)..], IsRelevant);
  }

  lemma FoundMonologue(f: seq<Event>, syntaxLoop: seq<Event> -> bool)
    requires Found(f, syntaxLoop).Some? && Found(f, syntaxLoop).value.loopType == Monologue
    ensures MonologueAt(f) == Found(f, syntaxLoop)
  {
    hide RepeatedPairAt, RepeatedErrorAt, MonologueAt, PatternAt, ContextWindowAt;
  }

  /** Recovery from a loop of condensations keeps none of them since the last user message exactly when
      the first neighbour among the last ten is no further behind the first condensation than the number of
      events dropped before that one. */
  lemma CondensationsKeepNoneExactlyWhen(h: seq<Event>, headless: bool, syntaxLoop: seq<Event> -> bool)
    requires Report(h, headless, syntaxLoop).Some? && Report(h, headless, syntaxLoop).value.loopType == ContextWindow
    ensures var c := Indices(Looked(h, headless), IsCondensation); var r := Neighbours(LastOf(c, 10));
            && Report(h, headless, syntaxLoop).value.start <= |h| && c != [] && r != []
            && ((forall q :: Offset(h, headless) <= q < Report(h, headless, syntaxLoop).value.start ==>
                               !IsCondensation(h[q]))
                <==> r[0] - c[0] <= DroppedBefore(h, headless, c[0]))
  {
    hide Found, Indices, DroppedBefore, PositionOf, Looked, Neighbours, FirstTight, IsTight;
    var f, start := Looked(h, headless), Report(h, headless, syntaxLoop).value.start;
    var c := Indices(f, IsCondensation);
    RecoveryCutsTheRepetition(h, headless, syntaxLoop, []);
    FoundContextWindow(f, syntaxLoop);
    ContextStartsAtFirstNeighbour(f);
    IndicesAscend(f, IsCondensation);
    forall j | 0 <= j < c[0] ensures !IsCondensation(f[j]) {
      if IsCondensation(f[j]) {
        IndicesAreAll(f, IsCondensation, j);
      }
    }
    PositionCountsDropped(h, headless, c[0]);
    KeptExactlyWhen(h, headless, IsCondensation, c[0], start);
  }

  lemma FoundContextWindow(f: seq<Event>, syntaxLoop: seq<Event> -> bool)
    requires Found(f, syntaxLoop).Some? && Found(f, syntaxLoop).value.loopType == ContextWindow
    ensures ContextWindowAt(f) == Found(f, syntaxLoop)
  {
    hide RepeatedPairAt, RepeatedErrorAt, MonologueAt, PatternAt, ContextWindowAt;
  }

  // How much is kept when nothing else happened.

  lemma {:induction false} IndicesOfAll(f: seq<Event>, p: Event -> bool)
    requires forall i :: 0 <= i < |f| ==> p(f[i])
    ensures |Indices(f, p)| == |f| && forall i :: 0 <= i < |f| ==> Indices(f, p)[i] == i
  {
    if f != [] {
      IndicesOfAll(f[..|f| - 1], p);
    }
  }

  /** No loop of actions without observations, or the other way round. */
  lemma NoPairsNoActionLoop(f: seq<Event>, syntaxLoop: seq<Event> -> bool)
    requires Window(f, IsAction, 4) == [] || Window(f, IsObservation, 4) == []
    requires Window(f, IsAction, 6) == [] || Window(f, IsObservation, 6) == []
    ensures RepeatedPairAt(f).None? && RepeatedErrorAt(f, syntaxLoop).None? && PatternAt(f).None?
  {
    hide Window, AllLikeFirst, AreErrors, Alternates, StartOf;
  }

  lemma LookedAtWhole(h: seq<Event>, headless: bool)
    requires forall i :: 0 <= i < |h| ==> IsRelevant(h[i])
    ensures Offset(h, headless) == 0 && Looked(h, headless) == h
  {
    NoUserMessages(h);
    assert h[0..] == h;
    FilteredAll(h, IsRelevant);
  }

  lemma MonologueOfCopies(f: seq<Event>)
    requires |f| >= 3 && forall i :: 0 <= i < |f| ==> IsAgentMessage(f[i]) && f[i].content == f[0].content
    ensures MonologueAt(f) == Some(Analysis(Monologue, 3, |f| - 3))
  {
    IndicesOfAll(f, IsAgentMessage);
  }

  lemma ContextWindowOfCondensations(f: seq<Event>)
    requires |f| >= 10 && forall i :: 0 <= i < |f| ==> IsCondensation(f[i])
    ensures ContextWindowAt(f) == Some(Analysis(ContextWindow, 2, |f| - 10)) && MonologueAt(f).None?
  {
    hide Indices, Filtered;
    IndicesOfAll(f, IsCondensation);
    FilteredNone(f, IsAgentMessage);
    FilteredAtIndices(f, IsAgentMessage);
    assert IsTight(f, Indices(f, IsCondensation), |f| - 10);
  }

  /** Of a history of nothing but copies of one agent message, recovery keeps all but three. */
  lemma OnlyCopiesKeepAllButThree(h: seq<Event>, headless: bool, syntaxLoop: seq<Event> -> bool)
    requires |h| >= 3 && forall i :: 0 <= i < |h| ==> IsAgentMessage(h[i]) && h[i].content == h[0].content
    ensures Report(h, headless, syntaxLoop) == Some(Analysis(Monologue, 3, |h| - 3))
  {
    LookedAtWhole(h, headless);
    FilteredNone(h, IsObservation);
    NoPairsNoActionLoop(h, syntaxLoop);
    MonologueOfCopies(h);
    hide Looked, RepeatedPairAt, RepeatedErrorAt, MonologueAt, PatternAt, ContextWindowAt;
  }

  /** Of a history of nothing but condensations, it keeps all but ten. */
  lemma OnlyCondensationsKeepAllButTen(h: seq<Event>, headless: bool, syntaxLoop: seq<Event> -> bool)
    requires |h| >= 10 && forall i :: 0 <= i < |h| ==> IsCondensation(h[i])
    ensures Report(h, headless, syntaxLoop) == Some(Analysis(ContextWindow, 2, |h| - 10))
  {
    LookedAtWhole(h, headless);
    FilteredNone(h, IsAction);
    NoPairsNoActionLoop(h, syntaxLoop);
    ContextWindowOfCondensations(h);
    hide Looked, RepeatedPairAt, RepeatedErrorAt, MonologueAt, PatternAt, ContextWindowAt;
  }

  /** Two neighbouring condensations, then `n` more, each after another event. */
  function Spread(condensation: Event, other: Event, n: nat): (h: seq<Event>)
    ensures |h| == 2 * n + 2 && forall i :: 0 <= i < |h| ==> h[i] == condensation || h[i] == other
    ensures forall k :: 1 <= k <= n ==> h[2 * k] == other
  {
    if n == 0 then [condensation, condensation]
    else Spread(condensation, other, n - 1) + [other, condensation]
  }

  lemma {:induction false} SpreadPositions(condensation: Event, other: Event, n: nat)
    requires IsCondensation(condensation) && !IsCondensation(other)
    ensures var c := Indices(Spread(condensation, other, n), IsCondensation);
            |c| == n + 2 && c[0] == 0 && forall k :: 1 <= k < |c| ==> c[k] == 2 * k - 1
  {
    var h := Spread(condensation, other, n);
    if n == 0 {
      assert h[..1][..0] == [];
    } else {
      var before := Spread(condensation, other, n - 1);
      SpreadPositions(condensation, other, n - 1);
      assert h[..|h| - 1] == before + [other] && (before + [other])[..|before|] == before;
    }
  }

  /** Scenario 5 with other events in between: one pair of neighbours among the last ten condensations is
      enough, and it is reported exactly until an eleventh condensation moves it out of the ten. */
  lemma SpreadCondensationsAreReportedExactlyWhen(condensation: Event, other: Event, n: nat, headless: bool,
                                                  syntaxLoop: seq<Event> -> bool)
    requires IsCondensation(condensation) && other.content.OtherObservation?
    ensures Report(Spread(condensation, other, n), headless, syntaxLoop).Some? <==> n == 8
    ensures Report(Spread(condensation, other, 8), headless, syntaxLoop) == Some(Analysis(ContextWindow, 2, 0))
  {
    SpreadReport(condensation, other, n, headless, syntaxLoop);
    SpreadReport(condensation, other, 8, headless, syntaxLoop);
  }

  lemma OnlyObservationsAreNoLoop(h: seq<Event>, syntaxLoop: seq<Event> -> bool)
    requires forall i :: 0 <= i < |h| ==> IsObservation(h[i])
    ensures RepeatedPairAt(h).None? && RepeatedErrorAt(h, syntaxLoop).None? && PatternAt(h).None?
    ensures MonologueAt(h).None?
  {
    hide RepeatedPairAt, RepeatedErrorAt, PatternAt, Filtered, Indices;
    FilteredNone(h, IsAction);
    FilteredNone(h, IsAgentMessage);
    FilteredAtIndices(h, IsAgentMessage);
    NoPairsNoActionLoop(h, syntaxLoop);
  }

  lemma SpreadReport(condensation: Event, other: Event, n: nat, headless: bool, syntaxLoop: seq<Event> -> bool)
    requires IsCondensation(condensation) && other.content.OtherObservation?
    ensures Report(Spread(condensation, other, n), headless, syntaxLoop)
            == if n == 8 then Some(Analysis(ContextWindow, 2, 0)) else None
  {
    hide Looked, RepeatedPairAt, RepeatedErrorAt, MonologueAt, PatternAt, ContextWindowAt, Spread;
    var h := Spread(condensation, other, n);
    LookedAtWhole(h, headless);
    OnlyObservationsAreNoLoop(h, syntaxLoop);
    SpreadContextWindow(condensation, other, n);
  }

  lemma SpreadContextWindow(condensation: Event, other: Event, n: nat)
    requires IsCondensation(condensation) && !IsCondensation(other)
    ensures ContextWindowAt(Spread(condensation, other, n))
            == if n == 8 then Some(Analysis(ContextWindow, 2, 0)) else None
  {
    hide Indices, Spread, FirstTight, IsTight;
    var f := Spread(condensation, other, n);
    var c := Indices(f, IsCondensation);
    SpreadPositions(condensation, other, n);
    ContextWindowFiresExactlyWhen(f);
    if n == 8 {
      assert c[0] + 1 == c[0 + 1];
      ContextStartsAtFirstNeighbour(f);
      assert c[0..] == c;
      FirstNeighbour(c, 0, 0);
    }
  }

  lemma {:induction false} NoUserMessages(h: seq<Event>)
    requires forall i :: 0 <= i < |h| ==> !IsUserMessage(h[i])
    ensures AfterLastUserMessage(h) == 0
  {
    if h != [] {
      NoUserMessages(h[..|h| - 1]);
    }
  }

  // ----- completeness -----

  function Interleaved(actions: seq<Event>, observations: seq<Event>): (es: seq<Event>)
    requires |actions| == |observations|
    ensures |es| == 2 * |actions|
  {
    if actions == [] then []
    else
      var n := |actions| - 1;
      Interleaved(actions[..n], observations[..n]) + [actions[n], observations[n]]
  }

  predicate ArePairs(actions: seq<Event>, observations: seq<Event>) {
    && |actions| == |observations|
    && (forall i :: 0 <= i < |actions| ==> IsAction(actions[i]) && IsRelevant(actions[i]))
    && (forall i :: 0 <= i < |observations| ==> IsObservation(observations[i]) && IsRelevant(observations[i]))
  }

  lemma FilteredPair(x: Event, y: Event, p: Event -> bool)
    ensures Filtered([x, y], p) == (if p(x) then [x] else []) + (if p(y) then [y] else [])
  {
    FilteredOne(y, p);
    FilteredCons(x, [y], p);
    assert [x] + [y] == [x, y];
  }

  lemma FilteredNothing(p: Event -> bool)
    ensures Filtered([], p) == []
  {
  }

  lemma {:induction false} FilteredInterleaved(actions: seq<Event>, observations: seq<Event>, p: Event -> bool,
                                               onActions: bool, onObservations: bool)
    requires |actions| == |observations|
    requires forall i :: 0 <= i < |actions| ==> p(actions[i]) == onActions && p(observations[i]) == onObservations
    ensures Filtered(Interleaved(actions, observations), p)
            == if onActions && onObservations then Interleaved(actions, observations)
               else if onActions then actions else if onObservations then observations else []
  {
    hide Filtered, Interleaved;
    InterleavedSnoc(actions, observations);
    if actions == [] {
      FilteredNothing(p);
    } else {
      var n := |actions| - 1;
      var xs, ys, a, b := actions[..n], observations[..n], actions[n], observations[n];
      FilteredInterleaved(xs, ys, p, onActions, onObservations);
      FilteredAppend(Interleaved(xs, ys), [a, b], p);
      FilteredPair(a, b, p);
      assert actions == xs + [a] && observations == ys + [b];
    }
  }

  lemma InterleavedSnoc(actions: seq<Event>, observations: seq<Event>)
    requires |actions| == |observations|
    ensures actions == [] ==> Interleaved(actions, observations) == []
    ensures actions != [] ==>
              var n := |actions| - 1;
              Interleaved(actions, observations)
              == Interleaved(actions[..n], observations[..n]) + [actions[n], observations[n]]
  {
  }

  lemma FilteredPairs(actions: seq<Event>, observations: seq<Event>)
    requires ArePairs(actions, observations)
    ensures Filtered(Interleaved(actions, observations), IsAction) == actions
    ensures Filtered(Interleaved(actions, observations), IsObservation) == observations
    ensures Filtered(Interleaved(actions, observations), IsRelevant) == Interleaved(actions, observations)
  {
    FilteredInterleaved(actions, observations, IsAction, true, false);
    FilteredInterleaved(actions, observations, IsObservation, false, true);
    FilteredInterleaved(actions, observations, IsRelevant, true, true);
  }

  /** A user message is never among relevant pairs, so they are looked at in both modes. */
  lemma LookedEndsInPairs(h: seq<Event>, actions: seq<Event>, observations: seq<Event>, headless: bool)
    requires ArePairs(actions, observations)
    ensures exists before ::
              Looked(h + Interleaved(actions, observations), headless) == before + Interleaved(actions, observations)
  {
    var pairs := Interleaved(actions, observations);
    var offset := Offset(h, headless);
    FilteredPairs(actions, observations);
    PairsAreRelevant(actions, observations);
    AfterLastUserMessageStays(h, pairs);
    DropOfAppended(h, pairs, offset);
    FilteredAppend(h[offset..], pairs, IsRelevant);
    assert Looked(h + pairs, headless) == Filtered(h[offset..], IsRelevant) + pairs;
  }

  lemma {:induction false} PairsAreRelevant(actions: seq<Event>, observations: seq<Event>)
    requires ArePairs(actions, observations)
    ensures forall i :: 0 <= i < 2 * |actions| ==> IsRelevant(Interleaved(actions, observations)[i])
  {
    if actions != [] {
      PairsAreRelevant(actions[..|actions| - 1], observations[..|actions| - 1]);
    }
  }

  lemma WindowsOfPairs(before: seq<Event>, actions: seq<Event>, observations: seq<Event>)
    requires ArePairs(actions, observations)
    ensures var f, n := before + Interleaved(actions, observations), |actions|;
            Window(f, IsAction, n) == Reversed(actions) && Window(f, IsObservation, n) == Reversed(observations)
  {
    var pairs, n := Interleaved(actions, observations), |actions|;
    FilteredPairs(actions, observations);
    WindowOfSuffix(before, pairs, IsAction, n);
    WindowOfSuffix(before, pairs, IsObservation, n);
  }

  /** Any history that ends in four agreeing pairs is reported, in both modes. */
  lemma FourAgreeingPairsAreReported(h: seq<Event>, actions: seq<Event>, observations: seq<Event>,
                                     headless: bool, syntaxLoop: seq<Event> -> bool)
    requires ArePairs(actions, observations) && |actions| == 4 && Agree(actions) && Agree(observations)
    ensures var r := Report(h + Interleaved(actions, observations), headless, syntaxLoop);
            r.Some? && r.value.loopType == RepeatedPair && r.value.times == 4
  {
    LookedEndsInPairs(h, actions, observations, headless);
    var all := h + Interleaved(actions, observations);
    var before :| Looked(all, headless) == before + Interleaved(actions, observations);
    WindowsOfPairs(before, actions, observations);
  }

  lemma ReportsRepeatedPairExactlyWhen(h: seq<Event>, headless: bool, syntaxLoop: seq<Event> -> bool)
    requires |Looked(h, headless)| >= 3
    ensures var r := Report(h, headless, syntaxLoop);
            (r.Some? && r.value.loopType == RepeatedPair) <==> RepeatedPairAt(Looked(h, headless)).Some?
  {
    hide RepeatedPairAt, RepeatedErrorAt, MonologueAt, PatternAt, ContextWindowAt, Looked;
  }

  /** Of four equal elements each compares equal to the first if the element does so to itself. */
  lemma CopiesAreLikeFirst(e: Event)
    ensures AllLikeFirst([e, e, e, e]) <==> !IsShortEdit(e)
  {
    hide EqNoPid, IsShortEdit;
    EqNoPidIsPartialEquivalence(e, e, e);
    var es := [e, e, e, e];
    assert es[0] == e && AllLikeFirst(es) ==> EqNoPid(es[0], es[1]);
  }

  /** Four copies of one pair are reported as such a loop exactly when the action is not a short edit. */
  lemma FourCopiesAreReportedExactlyWhen(h: seq<Event>, action: Event, observation: Event,
                                         headless: bool, syntaxLoop: seq<Event> -> bool)
    requires ArePairs([action], [observation])
    ensures var r := Report(h + Interleaved([action, action, action, action],
              [observation, observation, observation, observation]),
                            headless, syntaxLoop);
            (r.Some? && r.value.loopType == RepeatedPair) <==> !IsShortEdit(action)
  {
    hide Looked, Report, Window, EqNoPid, IsShortEdit, AllLikeFirst, StartOf, Interleaved, IsRelevant;
    var actions, observations := [action, action, action, action], [observation, observation, observation, observation];
    assert IsAction([action][0]) && IsObservation([observation][0]) && IsRelevant([action][0])
        && IsRelevant([observation][0]);
    LookedEndsInPairs(h, actions, observations, headless);
    var all := h + Interleaved(actions, observations);
    var before :| Looked(all, headless) == before + Interleaved(actions, observations);
    WindowsOfPairs(before, actions, observations);
    assert Reversed(actions) == actions && Reversed(observations) == observations;
    CopiesAreLikeFirst(action);
    CopiesAreLikeFirst(observation);
    ObservationIsNoEdit(observation);
    ReportsRepeatedPairExactlyWhen(all, headless, syntaxLoop);
  }

  lemma ObservationIsNoEdit(e: Event)
    requires IsObservation(e)
    ensures !IsShortEdit(e)
  {
  }

  lemma PatternIsFound(f: seq<Event>, syntaxLoop: seq<Event> -> bool)
    requires |f| >= 6 && |Window(f, IsAction, 6)| == 6 && |Window(f, IsObservation, 6)| == 6
    requires Alternates(Window(f, IsAction, 6)) && Alternates(Window(f, IsObservation, 6))
    ensures Found(f, syntaxLoop).Some?
  {
    hide EqNoPid;
  }

  /** Any history that ends in three alternations of two pairs is reported, in both modes. */
  lemma ThreeAlternationsAreReported(h: seq<Event>, actions: seq<Event>, observations: seq<Event>,
                                     headless: bool, syntaxLoop: seq<Event> -> bool)
    requires ArePairs(actions, observations) && |actions| == 6 && Alternates(actions) && Alternates(observations)
    ensures Report(h + Interleaved(actions, observations), headless, syntaxLoop).Some?
  {
    LookedEndsInPairs(h, actions, observations, headless);
    var all := h + Interleaved(actions, observations);
    var before :| Looked(all, headless) == before + Interleaved(actions, observations);
    WindowsOfPairs(before, actions, observations);
    AlternatesBackwards(actions);
    AlternatesBackwards(observations);
    PatternIsFound(Looked(all, headless), syntaxLoop);
  }

  lemma AlternatesBackwards(es: seq<Event>)
    requires |es| == 6 && Alternates(es)
    ensures Alternates(Reversed(es))
  {
    EqNoPidIsPartialEquivalence(es[0], es[2], es[4]);
    EqNoPidIsPartialEquivalence(es[2], es[0], es[4]);
    EqNoPidIsPartialEquivalence(es[0], es[4], es[2]);
    EqNoPidIsPartialEquivalence(es[2], es[4], es[0]);
    EqNoPidIsPartialEquivalence(es[1], es[3], es[5]);
    EqNoPidIsPartialEquivalence(es[3], es[1], es[5]);
    EqNoPidIsPartialEquivalence(es[1], es[5], es[3]);
    EqNoPidIsPartialEquivalence(es[3], es[5], es[1]);
  }
}
