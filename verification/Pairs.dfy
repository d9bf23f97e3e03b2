/** Pairing of actions and observations, through two dictionaries that keep insertion order. */
module Pairs {
  import opened Util

  /** An event without an id counts as having the id -1. */
  datatype Action = Action(id: int, content: string)

  datatype Observation = Observation(id: int, cause: Option<int>, isNull: bool, content: string)

  datatype Event = Acts(action: Action) | Observes(observation: Observation)

  /** NullObservation('') and NullAction(), as the pairing makes them. */
  const NO_OBSERVATION := Observation(-1, None, true, "")
  const NO_ACTION := Action(-1, "")

  type Pair = (Action, Observation)

  // ----- dictionaries -----

  /** A new key goes to the end; a known one keeps its place. */
  datatype Dict<V> = Dict(keys: seq<int>, values: map<int, V>)

  function Put<V>(d: Dict<V>, k: int, v: V): Dict<V> {
    Dict(if k in d.keys then d.keys else d.keys + [k], d.values[k := v])
  }

  // ----- what the pairs are, said over the list of events -----

  function Actions(events: seq<Event>): seq<Action> {
    if events == [] then []
    else
      var before, e := Actions(events[..|events| - 1]), events[|events| - 1];
      if e.Acts? then before + [e.action] else before
  }

  function Ids(events: seq<Event>): seq<int> {
    if events == [] then []
    else
      var before, e := Ids(events[..|events| - 1]), events[|events| - 1];
      if e.Acts? then before + [e.action.id] else before
  }

  predicate HasCause(e: Event) {
    e.Observes? && e.observation.cause.Some?
  }

  function Causes(events: seq<Event>): seq<int> {
    if events == [] then []
    else
      var before, e := Causes(events[..|events| - 1]), events[|events| - 1];
      if HasCause(e) then before + [e.observation.cause.value] else before
  }

  /** Each element once, where it first occurs. */
  function Firsts(xs: seq<int>): seq<int> {
    if xs == [] then []
    else
      var rest := Firsts(xs[..|xs| - 1]);
      if xs[|xs| - 1] in rest then rest else rest + [xs[|xs| - 1]]
  }

  /** The last action under an id. */
  function LastAction(events: seq<Event>, id: int): Option<Action> {
    if events == [] then None
    else
      var e := events[|events| - 1];
      if e.Acts? && e.action.id == id then Some(e.action) else LastAction(events[..|events| - 1], id)
  }

  /** The last observation caused by `cause`. */
  function LastObservation(events: seq<Event>, cause: int): Option<Observation> {
    if events == [] then None
    else
      var e := events[|events| - 1];
      if HasCause(e) && e.observation.cause.value == cause then Some(e.observation)
      else LastObservation(events[..|events| - 1], cause)
  }

  function Or<V>(o: Option<V>, v: V): V {
    if o.Some? then o.value else v
  }

  /** The pair of the action under `id`. */
  function ActionPair(events: seq<Event>, id: int): Pair {
    (Or(LastAction(events, id), NO_ACTION), Or(LastObservation(events, id), NO_OBSERVATION))
  }

  function ActionPairs(events: seq<Event>, ids: seq<int>): (ps: seq<Pair>)
    ensures |ps| == |ids| && forall i :: 0 <= i < |ids| ==> ps[i] == ActionPair(events, ids[i])
  {
    seq(|ids|, i requires 0 <= i < |ids| => ActionPair(events, ids[i]))
  }

  /** A cause that names no action and whose last observation is not null. */
  predicate IsOrphan(events: seq<Event>, cause: int) {
    LastAction(events, cause).None? && LastObservation(events, cause).Some?
        && !LastObservation(events, cause).value.isNull
  }

  function OrphanPairs(events: seq<Event>, causes: seq<int>): (ps: seq<Pair>)
    ensures |ps| <= |causes|
  {
    if causes == [] then []
    else
      var before, c := OrphanPairs(events, causes[..|causes| - 1]), causes[|causes| - 1];
      if IsOrphan(events, c) then before + [(NO_ACTION, LastObservation(events, c).value)] else before
  }

  // ----- the method -----

  ghost predicate ActionMapOk(d: Dict<Action>, events: seq<Event>) {
    && d.keys == Firsts(Ids(events))
    && forall id :: (id in d.values <==> LastAction(events, id).Some?)
        && (id in d.values ==> d.values[id] == LastAction(events, id).value)
  }

  ghost predicate ObservationMapOk(d: Dict<Observation>, events: seq<Event>) {
    && d.keys == Firsts(Causes(events))
    && forall c :: (c in d.values <==> LastObservation(events, c).Some?)
        && (c in d.values ==> d.values[c] == LastObservation(events, c).value)
  }

  lemma FirstsSnoc(xs: seq<int>, x: int)
    ensures Firsts(xs + [x]) == if x in Firsts(xs) then Firsts(xs) else Firsts(xs) + [x]
  {
    assert (xs + [x])[..|xs|] == xs;
  }

  lemma {:induction false} KeysAreKnown(events: seq<Event>)
    ensures forall id :: id in Firsts(Ids(events)) <==> LastAction(events, id).Some?
    ensures forall c :: c in Firsts(Causes(events)) <==> LastObservation(events, c).Some?
  {
    if events != [] {
      var n := |events| - 1;
      KeysAreKnown(events[..n]);
      if events[n].Acts? { FirstsSnoc(Ids(events[..n]), events[n].action.id); }
      if HasCause(events[n]) { FirstsSnoc(Causes(events[..n]), events[n].observation.cause.value); }
    }
  }

  lemma ActionSnoc(events: seq<Event>, e: Event, id: int)
    ensures LastAction(events + [e], id) == if e.Acts? && e.action.id == id then Some(e.action)
              else LastAction(events, id)
    ensures Ids(events + [e]) == if e.Acts? then Ids(events) + [e.action.id] else Ids(events)
  {
    assert (events + [e])[..|events|] == events;
  }

  lemma ActionMapStaysOk(actions: Dict<Action>, events: seq<Event>, e: Event)
    requires ActionMapOk(actions, events)
    ensures ActionMapOk(if e.Acts? then Put(actions, e.action.id, e.action) else actions, events + [e])
  {
    var all, d := events + [e], if e.Acts? then Put(actions, e.action.id, e.action) else actions;
    ActionSnoc(events, e, 0);
    if e.Acts? { FirstsSnoc(Ids(events), e.action.id); }
    forall id ensures (id in d.values <==> LastAction(all, id).Some?)
        && (id in d.values ==> d.values[id] == LastAction(all, id).value) {
      ActionSnoc(events, e, id);
    }
  }

  lemma ObservationSnoc(events: seq<Event>, e: Event, c: int)
    ensures LastObservation(events + [e], c)
            == if HasCause(e) && e.observation.cause.value == c then Some(e.observation) else LastObservation(events, c)
    ensures Causes(events + [e]) == if HasCause(e) then Causes(events) + [e.observation.cause.value] else Causes(events)
  {
    assert (events + [e])[..|events|] == events;
  }

  lemma ObservationMapStaysOk(observations: Dict<Observation>, events: seq<Event>, e: Event)
    requires ObservationMapOk(observations, events)
    ensures var d := if HasCause(e) then Put(observations, e.observation.cause.value, e.observation) else observations;
            ObservationMapOk(d, events + [e])
  {
    var all := events + [e];
    var d := if HasCause(e) then Put(observations, e.observation.cause.value, e.observation) else observations;
    ObservationSnoc(events, e, 0);
    if HasCause(e) { FirstsSnoc(Causes(events), e.observation.cause.value); }
    forall c ensures (c in d.values <==> LastObservation(all, c).Some?)
        && (c in d.values ==> d.values[c] == LastObservation(all, c).value) {
      ObservationSnoc(events, e, c);
    }
  }

  method GetPairsFromEvents(events: seq<Event>) returns (tuples: seq<Pair>)
    ensures tuples == ActionPairs(events, Firsts(Ids(events))) + OrphanPairs(events, Firsts(Causes(events)))
  {
    tuples := [];
    var actionMap: Dict<Action> := Dict([], map[]);
    var observationMap: Dict<Observation> := Dict([], map[]);
    for i := 0 to |events|
      invariant ActionMapOk(actionMap, events[..i]) && ObservationMapOk(observationMap, events[..i])
    {
      var event := events[i];
      ActionMapStaysOk(actionMap, events[..i], event);
      ObservationMapStaysOk(observationMap, events[..i], event);
      assert events[..i + 1] == events[..i] + [event];
      if event.Acts? {
        actionMap := Put(actionMap, event.action.id, event.action);
      }
      if event.Observes? {
        if event.observation.cause.None? { continue; }
        observationMap := Put(observationMap, event.observation.cause.value, event.observation);
      }
    }
    assert events[..|events|] == events;
    KeysAreKnown(events);
    for i := 0 to |actionMap.keys|
      invariant tuples == ActionPairs(events, actionMap.keys[..i])
    {
      var id := actionMap.keys[i];
      assert actionMap.keys[..i + 1] == actionMap.keys[..i] + [id];
      if id in observationMap.values {
        tuples := tuples + [(actionMap.values[id], observationMap.values[id])];
      } else {
        tuples := tuples + [(actionMap.values[id], NO_OBSERVATION)];
      }
    }
    assert actionMap.keys[..|actionMap.keys|] == actionMap.keys;
    var orphans := PairOrphans(events, actionMap, observationMap);
    tuples := tuples + orphans;
  }

  /** The last loop: observations whose cause names no action. */
  method PairOrphans(ghost events: seq<Event>, actionMap: Dict<Action>, observationMap: Dict<Observation>)
    returns (tuples: seq<Pair>)
    requires ActionMapOk(actionMap, events) && ObservationMapOk(observationMap, events)
    ensures tuples == OrphanPairs(events, observationMap.keys)
  {
    KeysAreKnown(events);
    tuples := [];
    for i := 0 to |observationMap.keys|
      invariant tuples == OrphanPairs(events, observationMap.keys[..i])
    {
      var cause := observationMap.keys[i];
      assert observationMap.keys[..i + 1][..i] == observationMap.keys[..i];
      if cause !in actionMap.values {
        if observationMap.values[cause].isNull { continue; }
        tuples := tuples + [(NO_ACTION, observationMap.values[cause])];
      }
    }
    assert observationMap.keys[..|observationMap.keys|] == observationMap.keys;
  }

  // ----- what that conserves -----

  lemma {:induction false} FirstsAreDistinct(xs: seq<int>)
    ensures AreDistinct(Firsts(xs)) && |Firsts(xs)| <= |xs|
    ensures forall x :: x in Firsts(xs) <==> x in xs
  {
    if xs != [] {
      FirstsAreDistinct(xs[..|xs| - 1]);
      assert xs == xs[..|xs| - 1] + [xs[|xs| - 1]];
    }
  }

  lemma {:induction false} FirstsOfDistinct(xs: seq<int>)
    ensures Firsts(xs) == xs <==> AreDistinct(xs)
  {
    if xs != [] {
      var n := |xs| - 1;
      FirstsOfDistinct(xs[..n]);
      FirstsAreDistinct(xs[..n]);
      FirstsAreDistinct(xs);
      if AreDistinct(xs) {
        assert forall i :: 0 <= i < n ==> xs[..n][i] != xs[n];
      }
    }
  }

  lemma {:induction false} IdsOfActions(events: seq<Event>)
    ensures |Ids(events)| == |Actions(events)|
    ensures forall i :: 0 <= i < |Actions(events)| ==> Ids(events)[i] == Actions(events)[i].id
  {
    if events != [] {
      IdsOfActions(events[..|events| - 1]);
    }
  }

  /** Under distinct ids the last action of an id is the only one. */
  lemma {:induction false} LastActionOfDistinct(events: seq<Event>, i: nat)
    requires AreDistinct(Ids(events)) && i < |Actions(events)|
    ensures LastAction(events, Actions(events)[i].id) == Some(Actions(events)[i])
  {
    IdsOfActions(events);
    var n := |events| - 1;
    if events != [] {
      IdsOfActions(events[..n]);
      var ids, before := Ids(events), Ids(events[..n]);
      assert forall k :: 0 <= k < |before| ==> ids[k] == before[k];
      if i < |Actions(events[..n])| {
        LastActionOfDistinct(events[..n], i);
        if events[n].Acts? { assert ids[i] != ids[|ids| - 1]; }
      }
    }
  }

  /** Every action is paired exactly once, in order, with the last observation it caused or a null one,
      exactly when the action ids are distinct. */
  lemma ActionsAreConservedExactlyWhen(events: seq<Event>)
    ensures var ps := ActionPairs(events, Firsts(Ids(events)));
            (|ps| == |Actions(events)| && forall i :: 0 <= i < |ps| ==>
               ps[i] == (Actions(events)[i],
                         Or(LastObservation(events, Actions(events)[i].id), Observation(-1, None, true, ""))))
            <==> AreDistinct(Ids(events))
  {
    IdsOfActions(events);
    FirstsOfDistinct(Ids(events));
    FirstsAreDistinct(Ids(events));
    if AreDistinct(Ids(events)) {
      forall i | 0 <= i < |Actions(events)|
          ensures LastAction(events, Actions(events)[i].id) == Some(Actions(events)[i]) {
        LastActionOfDistinct(events, i);
      }
    } else {
      FewerFirsts(Ids(events));
    }
  }

  lemma {:induction false} FewerFirsts(xs: seq<int>)
    requires !AreDistinct(xs)
    ensures |Firsts(xs)| < |xs|
  {
    var n := |xs| - 1;
    FirstsAreDistinct(xs[..n]);
    if AreDistinct(xs[..n]) {
      var i, j :| 0 <= i < j < |xs| && xs[i] == xs[j];
      assert j == n;
      assert xs[n] == xs[..n][i];
    } else {
      FewerFirsts(xs[..n]);
    }
  }

  function OrphanCauses(events: seq<Event>, causes: seq<int>): seq<int> {
    Filtered(causes, (c: int) => IsOrphan(events, c))
  }

  lemma {:induction false} OrphanPairsOf(events: seq<Event>, causes: seq<int>)
    ensures |OrphanPairs(events, causes)| == |OrphanCauses(events, causes)|
    ensures forall i :: 0 <= i < |OrphanCauses(events, causes)| ==>
              IsOrphan(events, OrphanCauses(events, causes)[i]) &&
              OrphanPairs(events, causes)[i] == (NO_ACTION,
                  LastObservation(events, OrphanCauses(events, causes)[i]).value)
  {
    if causes != [] {
      OrphanPairsOf(events, causes[..|causes| - 1]);
    }
  }

  lemma {:induction false} FilteredIsDistinct(xs: seq<int>, p: int -> bool)
    requires AreDistinct(xs)
    ensures AreDistinct(Filtered(xs, p)) && forall x :: x in Filtered(xs, p) <==> x in xs && p(x)
  {
    if xs != [] {
      var n := |xs| - 1;
      assert xs == xs[..n] + [xs[n]];
      FilteredIsDistinct(xs[..n], p);
    }
  }

  /** An action of the list has that id. */
  predicate ActsUnder(events: seq<Event>, id: int) {
    exists i :: 0 <= i < |events| && events[i].Acts? && events[i].action.id == id
  }

  /** After the actions come one pair per cause that names no action and whose last observation is not
      null, holding that observation, and nothing else. */
  lemma OrphansAreConserved(events: seq<Event>)
    ensures var ps, cs := OrphanPairs(events, Firsts(Causes(events))), OrphanCauses(events, Firsts(Causes(events)));
            && |ps| == |cs| && AreDistinct(cs)
            && (forall c :: c in cs <==> !ActsUnder(events, c) && LastObservation(events, c).Some?
                                         && !LastObservation(events, c).value.isNull)
            && (forall i :: 0 <= i < |cs| ==>
                  LastObservation(events, cs[i]).Some? &&
                  ps[i] == (Action(-1, ""), LastObservation(events, cs[i]).value))
  {
    var causes := Firsts(Causes(events));
    FirstsAreDistinct(Causes(events));
    OrphanPairsOf(events, causes);
    FilteredIsDistinct(causes, (c: int) => IsOrphan(events, c));
    forall c ensures c in Causes(events) && IsOrphan(events, c) <==>
                       !ActsUnder(events, c) && LastObservation(events, c).Some?
                       && !LastObservation(events, c).value.isNull {
      NoActionExactlyWhen(events, c);
      ObservedCauses(events, c);
    }
  }

  lemma {:induction false} NoActionExactlyWhen(events: seq<Event>, id: int)
    ensures LastAction(events, id).None? <==> !ActsUnder(events, id)
  {
    if events != [] {
      var n := |events| - 1;
      NoActionExactlyWhen(events[..n], id);
      forall i | 0 <= i < n ensures events[i] == events[..n][i] {
      }
      assert forall i :: 0 <= i < n ==> events[..n][i] == events[i];
    }
  }

  lemma {:induction false} ObservedCauses(events: seq<Event>, c: int)
    ensures LastObservation(events, c).Some? <==> c in Causes(events)
  {
    if events != [] {
      ObservedCauses(events[..|events| - 1], c);
    }
  }

  predicate CausedAt(events: seq<Event>, cause: int, i: int) {
    0 <= i < |events| && HasCause(events[i]) && events[i].observation.cause.value == cause
  }

  /** The last observation of a cause is an observation of the list, and no later one has that cause. */
  lemma {:induction false} LastObservationIsLast(events: seq<Event>, cause: int)
    ensures LastObservation(events, cause).Some? <==> exists i :: CausedAt(events, cause, i)
    ensures LastObservation(events, cause).Some? ==>
              exists i :: CausedAt(events, cause, i) && events[i].observation == LastObservation(events, cause).value
                          && forall j :: CausedAt(events, cause, j) ==> j <= i
  {
    if events != [] {
      var n := |events| - 1;
      var before := events[..n];
      LastObservationIsLast(before, cause);
      forall i | i < n ensures CausedAt(events, cause, i) <==> CausedAt(before, cause, i) {
      }
      if CausedAt(events, cause, n) {
        assert forall j :: CausedAt(events, cause, j) ==> j <= n;
      } else if LastObservation(before, cause).Some? {
        var i :| CausedAt(before, cause, i) && before[i].observation == LastObservation(before, cause).value
                 && forall j :: CausedAt(before, cause, j) ==> j <= i;
        assert CausedAt(events, cause, i);
      }
    }
  }
}
