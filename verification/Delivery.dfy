/** How events reach the subscribers of a stream: one queue thread hands every event to one
    single-worker pool per callback; the pools run on their own. */
module Delivery {
  import opened Util

  /** A callback is registered under a subscriber id and a callback id. */
  datatype Callback = Callback(subscriber: string, id: string)

  /** A callback is registered before its pool is set, and stays registered after its pool is shut down. */
  datatype Stage = Unpooled | Live | Down

  /** `submitted` is what the queue thread has given to the pool and `done` how much of it the worker
      has finished; `from` is the position in the queue's history of the first event it will get. */
  datatype Pool<Event> = Pool(stage: Stage, from: nat, submitted: seq<Event>, done: nat)

  /** The event the queue thread is handing out: position `at`; `keys` are the subscriber ids it has not
      come to, `ids` the callbacks left of the subscriber id it is at, and `tested` says that the first of
      them was found to be registered. */
  datatype Round = Idle | Handing(at: nat, keys: seq<string>, ids: seq<Callback>, tested: bool)

  /** `puts` is every event ever put on the queue, `taken` how many the queue thread has taken off.
      `subscribers` are the subscriber ids that have a dictionary; a dictionary, once made, stays.
      `pools` has every registered callback; `ended` says that an exception has ended the queue thread. */
  datatype State<Event> = State(
    puts: seq<Event>, taken: nat, subscribers: set<string>, pools: map<Callback, Pool<Event>>,
    round: Round, ended: bool)

  /** Subscribing is Register, then AddPool; unsubscribing is ShutDown, then Remove.  The queue thread
      takes an event, visits the subscriber ids one by one, tests each of the callbacks it copied, and
      looks up the pool of those it found to submit the event. */
  datatype Label<Event> =
    | Put(e: Event)
    | Register(cb: Callback)
    | AddPool(cb: Callback)
    | ShutDown(cb: Callback)
    | Remove(cb: Callback)
    | Take(keys: seq<string>)
    | VisitKey(ids: seq<Callback>)
    | Test(cb: Callback)
    | Submit(cb: Callback)
    | EndRound
    | Work(cb: Callback)

  ghost predicate Enabled<Event>(s: State<Event>, l: Label<Event>) {
    match l
    case Put(_) => true
    case Register(cb) => cb !in s.pools
    case AddPool(cb) => cb in s.pools && s.pools[cb].stage.Unpooled?
    case ShutDown(cb) => cb in s.pools && s.pools[cb].stage.Live?
    // shutting a pool down waits for its worker
    case Remove(cb) => cb in s.pools && s.pools[cb].stage.Down? && s.pools[cb].done == |s.pools[cb].submitted|
    case Take(keys) =>
      && !s.ended && s.round.Idle? && s.taken < |s.puts| && AreDistinct(keys)
      && (forall k :: k in keys <==> k in s.subscribers)
    case VisitKey(ids) =>
      && !s.ended && s.round.Handing? && s.round.ids == [] && s.round.keys != [] && AreDistinct(ids)
      && (forall cb :: cb in ids <==> cb in s.pools && cb.subscriber == s.round.keys[0])
    case Test(cb) => !s.ended && s.round.Handing? && s.round.ids != [] && s.round.ids[0] == cb && !s.round.tested
    case Submit(cb) =>
      && !s.ended && s.round.Handing? && s.round.ids != [] && s.round.ids[0] == cb && s.round.tested
      && s.round.at < |s.puts|
    case EndRound => !s.ended && s.round.Handing? && s.round.keys == [] && s.round.ids == []
    case Work(cb) => cb in s.pools && s.pools[cb].done < |s.pools[cb].submitted|
  }

  /** The event now being handed out is still to come for `cb`. */
  predicate Awaits(round: Round, cb: Callback) {
    round.Handing? && (cb.subscriber in round.keys || cb in round.ids)
  }

  predicate HasLivePool<Event>(s: State<Event>, cb: Callback) {
    cb in s.pools && s.pools[cb].stage.Live?
  }

  ghost function Apply<Event>(s: State<Event>, l: Label<Event>): State<Event>
    requires Enabled(s, l)
  {
    match l
    case Put(e) => s.(puts := s.puts + [e])
    case Register(cb) =>
      s.(subscribers := s.subscribers + {cb.subscriber},
         pools := s.pools[cb := Pool(Unpooled, if Awaits(s.round, cb) then s.round.at else s.taken, [], 0)])
    case AddPool(cb) => s.(pools := s.pools[cb := s.pools[cb].(stage := Live)])
    case ShutDown(cb) => s.(pools := s.pools[cb := s.pools[cb].(stage := Down)])
    case Remove(cb) => s.(pools := s.pools - {cb})
    case Take(keys) => s.(taken := s.taken + 1, round := Handing(s.taken, keys, [], false))
    case VisitKey(ids) => s.(round := s.round.(keys := s.round.keys[1..], ids := ids, tested := false))
    case Test(cb) =>
      // a callback removed since the ids were copied is passed over
      if cb in s.pools then s.(round := s.round.(tested := true))
      else s.(round := s.round.(ids := s.round.ids[1..]))
    case Submit(cb) =>
      // no pool is found for the callback, or one that takes no more work
      if !HasLivePool(s, cb) then s.(ended := true)
      else
        s.(round := s.round.(ids := s.round.ids[1..], tested := false),
           pools := s.pools[cb := s.pools[cb].(submitted := s.pools[cb].submitted + [s.puts[s.round.at]])])
    case EndRound => s.(round := Idle)
    case Work(cb) => s.(pools := s.pools[cb := s.pools[cb].(done := s.pools[cb].done + 1)])
  }

  ghost predicate PossibleRun<Event>(s: State<Event>, ls: seq<Label<Event>>)
    decreases |ls|
  {
    ls == [] || (Enabled(s, ls[0]) && PossibleRun(Apply(s, ls[0]), ls[1..]))
  }

  ghost function Final<Event>(s: State<Event>, ls: seq<Label<Event>>): State<Event>
    requires PossibleRun(s, ls)
    decreases |ls|
  {
    if ls == [] then s else Final(Apply(s, ls[0]), ls[1..])
  }

  /** Up to which position the queue's history has been handed to `cb`. */
  function HandedUpTo<Event>(s: State<Event>, cb: Callback): nat {
    if Awaits(s.round, cb) then s.round.at else s.taken
  }

  ghost predicate RoundOk<Event>(s: State<Event>) {
    && s.taken <= |s.puts|
    && (s.round.Handing? ==>
          && s.round.at + 1 == s.taken && AreDistinct(s.round.keys) && AreDistinct(s.round.ids)
          && (forall cb :: cb in s.round.ids ==> cb.subscriber !in s.round.keys)
          && (s.round.tested ==> s.round.ids != []))
    && (forall cb :: cb in s.pools ==> cb.subscriber in s.subscribers)
  }

  /** What a pool has been given is the queue's history from its start to where the thread has come. */
  ghost predicate PoolOk<Event>(s: State<Event>, cb: Callback)
    requires cb in s.pools
  {
    var p := s.pools[cb];
    && p.from <= HandedUpTo(s, cb) <= |s.puts|
    && p.submitted == s.puts[p.from..HandedUpTo(s, cb)]
    && p.done <= |p.submitted|
  }

  ghost predicate Inv<Event>(s: State<Event>) {
    RoundOk(s) && forall cb :: cb in s.pools ==> PoolOk(s, cb)
  }

  lemma StepKeepsRound<Event>(s: State<Event>, l: Label<Event>)
    requires RoundOk(s) && Enabled(s, l)
    ensures RoundOk(Apply(s, l))
  {
    if l.VisitKey? {
      assert s.round.keys[0] !in s.round.keys[1..];
    }
  }

  /** A step hands the current event to the callback at the front, takes a new event, or leaves what a
      subscribed callback has been handed as it is. */
  lemma HandedAfter<Event>(s: State<Event>, l: Label<Event>, cb: Callback)
    requires RoundOk(s) && Enabled(s, l) && cb in s.pools && cb in Apply(s, l).pools
    ensures HandedUpTo(Apply(s, l), cb)
            == if l == Submit(cb) && HasLivePool(s, cb) then s.round.at + 1 else HandedUpTo(s, cb)
    ensures l == Submit(cb) ==> HandedUpTo(s, cb) == s.round.at
  {
    match l
    case VisitKey(ids) =>
      assert s.round.keys == [s.round.keys[0]] + s.round.keys[1..];
      assert s.round.keys[0] !in s.round.keys[1..];
    case Test(c) =>
      assert s.round.ids == [c] + s.round.ids[1..];
    case Submit(c) =>
      assert s.round.ids == [c] + s.round.ids[1..];
      assert c !in s.round.ids[1..];
    case _ =>
  }

  /** What a step leaves of a pool it does not set up. */
  lemma PoolAfter<Event>(s: State<Event>, l: Label<Event>, cb: Callback)
    requires Enabled(s, l) && cb in s.pools && cb in Apply(s, l).pools
    requires l == Submit(cb) && HasLivePool(s, cb) ==> s.round.at < |s.puts|
    ensures var p, q := s.pools[cb], Apply(s, l).pools[cb];
            && q.from == p.from && p.done <= q.done && (q.done == p.done || q.done <= |p.submitted|)
            && q.submitted == p.submitted + (if l == Submit(cb) && HasLivePool(s, cb) then [s.puts[s.round.at]] else [])
    ensures s.puts <= Apply(s, l).puts
  {
    hide AreDistinct, Awaits;
  }

  lemma NewPoolIsOk<Event>(s: State<Event>, l: Label<Event>, cb: Callback)
    requires RoundOk(s) && Enabled(s, l) && cb !in s.pools && cb in Apply(s, l).pools
    ensures PoolOk(Apply(s, l), cb)
  {
    hide AreDistinct;
  }

  lemma StretchStays<Event>(xs: seq<Event>, ys: seq<Event>, i: nat, j: nat)
    requires xs <= ys && i <= j <= |xs|
    ensures ys[i..j] == xs[i..j]
  {
  }

  lemma StretchSnoc<Event>(xs: seq<Event>, i: nat, j: nat)
    requires i <= j < |xs|
    ensures xs[i..j + 1] == xs[i..j] + [xs[j]]
  {
  }

  lemma StepKeepsPool<Event>(s: State<Event>, l: Label<Event>, cb: Callback)
    requires RoundOk(s) && Enabled(s, l) && cb in Apply(s, l).pools
    requires cb in s.pools ==> PoolOk(s, cb)
    ensures PoolOk(Apply(s, l), cb)
  {
    if cb !in s.pools {
      NewPoolIsOk(s, l, cb);
    } else {
      HandedAfter(s, l, cb);
      PoolAfter(s, l, cb);
      HandedIsPut(s, l, cb);
      hide RoundOk, Apply, Enabled, Awaits, HandedUpTo, HasLivePool, AreDistinct;
      var p, n := s.pools[cb], HandedUpTo(s, cb);
      StretchStays(s.puts, Apply(s, l).puts, p.from, n);
      if l == Submit(cb) && HasLivePool(s, cb) {
        StretchStays(s.puts, Apply(s, l).puts, p.from, n + 1);
        StretchSnoc(s.puts, p.from, n);
      }
    }
  }

  lemma HandedIsPut<Event>(s: State<Event>, l: Label<Event>, cb: Callback)
    requires RoundOk(s) && Enabled(s, l) && cb in s.pools && cb in Apply(s, l).pools
    ensures HandedUpTo(Apply(s, l), cb) <= |Apply(s, l).puts|
  {
    StepKeepsRound(s, l);
    hide Apply, Enabled, AreDistinct;
  }

  lemma {:induction false} RunKeepsInv<Event>(s: State<Event>, ls: seq<Label<Event>>)
    requires Inv(s) && PossibleRun(s, ls)
    ensures Inv(Final(s, ls))
    decreases |ls|
  {
    if ls != [] {
      StepKeepsRound(s, ls[0]);
      forall cb | cb in Apply(s, ls[0]).pools ensures PoolOk(Apply(s, ls[0]), cb) {
        StepKeepsPool(s, ls[0], cb);
      }
      RunKeepsInv(Apply(s, ls[0]), ls[1..]);
    }
  }

  /** What a callback's worker has processed so far. */
  function Processed<Event>(p: Pool<Event>): seq<Event>
    requires p.done <= |p.submitted|
  {
    p.submitted[..p.done]
  }

  lemma StretchOf<Event>(t: State<Event>, cb: Callback)
    requires cb in t.pools && PoolOk(t, cb)
    ensures var p := t.pools[cb];
            p.done <= |p.submitted| && p.from + p.done <= |t.puts| && Processed(p) == t.puts[p.from..p.from + p.done]
  {
  }

  lemma StretchesNest<Event>(xs: seq<Event>, from: nat, m: nat, n: nat)
    requires from + m <= |xs| && from + n <= |xs|
    ensures xs[from..from + m] <= xs[from..from + n] || xs[from..from + n] <= xs[from..from + m]
  {
    if m <= n {
      assert xs[from..from + m] == xs[from..from + n][..m];
    } else {
      assert xs[from..from + n] == xs[from..from + m][..n];
    }
  }

  /** Two callbacks in any state that keeps the invariant. */
  lemma StretchesAgree<Event>(t: State<Event>, a: Callback, b: Callback)
    requires Inv(t) && a in t.pools && b in t.pools
    ensures var p, q := t.pools[a], t.pools[b];
            && p.done <= |p.submitted| && q.done <= |q.submitted| && p.from + p.done <= |t.puts|
            && Processed(p) == t.puts[p.from..p.from + p.done]
            && (p.from == q.from ==> Processed(p) <= Processed(q) || Processed(q) <= Processed(p))
  {
    StretchOf(t, a);
    StretchOf(t, b);
    if t.pools[a].from == t.pools[b].from {
      StretchesNest(t.puts, t.pools[a].from, t.pools[a].done, t.pools[b].done);
    }
  }

  /** A stream starts without events and subscribers. */
  function Fresh<Event>(): State<Event> {
    State([], 0, {}, map[], Idle, false)
  }

  /** Same delivery order: whatever is put, subscribed, removed and worked off in between, each
      callback has processed one unbroken stretch of the queue's history, in order and each event once;
      of two callbacks whose stretches start together, one is a prefix of the other. */
  lemma SameDeliveryOrder<Event>(ls: seq<Label<Event>>, a: Callback, b: Callback)
    requires PossibleRun(Fresh<Event>(), ls)
    requires a in Final(Fresh<Event>(), ls).pools && b in Final(Fresh<Event>(), ls).pools
    ensures var t := Final(Fresh<Event>(), ls); var p, q := t.pools[a], t.pools[b];
            && p.done <= |p.submitted| && q.done <= |q.submitted| && p.from + p.done <= |t.puts|
            && Processed(p) == t.puts[p.from..p.from + p.done]
            && (p.from == q.from ==> Processed(p) <= Processed(q) || Processed(q) <= Processed(p))
  {
    RunKeepsInv(Fresh<Event>(), ls);
    StretchesAgree(Final(Fresh<Event>(), ls), a, b);
  }

  // ----- the end of the queue thread -----

  lemma {:induction false} SplitLast<Event>(s: State<Event>, ls: seq<Label<Event>>)
    requires PossibleRun(s, ls) && ls != []
    ensures PossibleRun(s, ls[..|ls| - 1]) && Enabled(Final(s, ls[..|ls| - 1]), ls[|ls| - 1])
    ensures Final(s, ls) == Apply(Final(s, ls[..|ls| - 1]), ls[|ls| - 1])
    decreases |ls|
  {
    if |ls| > 1 {
      SplitLast(Apply(s, ls[0]), ls[1..]);
      assert ls[1..][..|ls| - 2] == ls[..|ls| - 1][1..];
    }
  }

  lemma {:induction false} Extend<Event>(s: State<Event>, ls: seq<Label<Event>>, l: Label<Event>)
    requires PossibleRun(s, ls) && Enabled(Final(s, ls), l)
    ensures PossibleRun(s, ls + [l]) && Final(s, ls + [l]) == Apply(Final(s, ls), l)
    decreases |ls|
  {
    if ls == [] {
      assert ls + [l] == [l];
      assert PossibleRun(Apply(s, l), []);
    } else {
      Extend(Apply(s, ls[0]), ls[1..], l);
      assert (ls + [l])[1..] == ls[1..] + [l];
    }
  }

  /** Of the steps that set up or shut down a pool of `cb`, the last one set it up. */
  predicate LastAdded<Event>(ls: seq<Label<Event>>, cb: Callback)
    decreases |ls|
  {
    ls != [] && (ls[|ls| - 1] == AddPool(cb) || (ls[|ls| - 1] != ShutDown(cb) && LastAdded(ls[..|ls| - 1], cb)))
  }

  lemma LivePoolAfter<Event>(s: State<Event>, l: Label<Event>, cb: Callback)
    requires Enabled(s, l)
    ensures HasLivePool(Apply(s, l), cb) <==> l == AddPool(cb) || (l != ShutDown(cb) && HasLivePool(s, cb))
  {
    hide AreDistinct, Awaits;
  }

  lemma {:induction false} LivePoolExactlyWhen<Event>(ls: seq<Label<Event>>, cb: Callback)
    requires PossibleRun(Fresh<Event>(), ls)
    ensures HasLivePool(Final(Fresh<Event>(), ls), cb) <==> LastAdded(ls, cb)
    decreases |ls|
  {
    hide Enabled, Apply, PossibleRun;
    if ls != [] {
      var m := |ls| - 1;
      SplitLast(Fresh<Event>(), ls);
      LivePoolAfter(Final(Fresh<Event>(), ls[..m]), ls[m], cb);
      LivePoolExactlyWhen(ls[..m], cb);
    }
  }

  /** The queue thread outlives a run if and only if, whenever it submits to a callback, the callback's
      pool was set up and not shut down since. */
  lemma {:induction false} ThreadSurvivesExactlyWhen<Event>(ls: seq<Label<Event>>)
    requires PossibleRun(Fresh<Event>(), ls)
    ensures !Final(Fresh<Event>(), ls).ended
            <==> forall k :: 0 <= k < |ls| && ls[k].Submit? ==> LastAdded(ls[..k], ls[k].cb)
    decreases |ls|
  {
    if ls != [] {
      var m := |ls| - 1;
      SplitLast(Fresh<Event>(), ls);
      ThreadSurvivesExactlyWhen(ls[..m]);
      assert forall k :: 0 <= k < m ==> ls[..m][..k] == ls[..k];
      if ls[m].Submit? {
        LivePoolExactlyWhen(ls[..m], ls[m].cb);
      }
      assert forall k :: 0 <= k < m ==> ls[..m][k] == ls[k];
    }
  }

  /** A round that begins and comes to `cb`, the only callback, finding it registered. */
  function RoundTo<Event>(cb: Callback, e: Event): (ls: seq<Label<Event>>) {
    [Put(e), Take([cb.subscriber]), VisitKey([cb]), Test(cb)]
  }

  lemma RoundComesTo<Event>(ls: seq<Label<Event>>, cb: Callback, e: Event, p: Pool<Event>)
    requires PossibleRun(Fresh<Event>(), ls)
    requires Final(Fresh<Event>(), ls) == State([], 0, {cb.subscriber}, map[cb := p], Idle, false)
    ensures PossibleRun(Fresh<Event>(), ls + RoundTo(cb, e))
    ensures Final(Fresh<Event>(), ls + RoundTo(cb, e))
            == State([e], 1, {cb.subscriber}, map[cb := p], Handing(0, [], [cb], true), false)
  {
    hide AreDistinct, PossibleRun, Final;
    var f := Fresh<Event>();
    Extend(f, ls, Put(e));
    Extend(f, ls + [Put(e)], Take([cb.subscriber]));
    var l3 := ls + [Put(e)] + [Take([cb.subscriber])];
    assert Final(f, l3) == State([e], 1, {cb.subscriber}, map[cb := p], Handing(0, [cb.subscriber], [], false), false);
    Extend(f, l3, VisitKey([cb]));
    var s4 := State([e], 1, {cb.subscriber}, map[cb := p], Handing(0, [], [cb], false), false);
    assert Final(f, l3 + [VisitKey([cb])]) == s4 by {
      assert [cb.subscriber][1..] == [];
    }
    Extend(f, l3 + [VisitKey([cb])], Test(cb));
    assert l3 + [VisitKey([cb])] + [Test(cb)] == ls + RoundTo(cb, e);
  }

  /** A round that finds a callback registered whose pool is not set yet. */
  function SubscribeRace<Event>(cb: Callback, e: Event): (ls: seq<Label<Event>>) {
    [Register(cb)] + RoundTo(cb, e) + [Submit(cb)]
  }

  /** A round that finds a callback registered whose pool is shut down before the event is submitted. */
  function ShutDownRace<Event>(cb: Callback, e: Event): (ls: seq<Label<Event>>) {
    [Register(cb), AddPool(cb)] + RoundTo(cb, e) + [ShutDown(cb)] + [Submit(cb)]
  }

  /** A round that finds a callback registered that is removed before its pool is looked up. */
  function RemovalRace<Event>(cb: Callback, e: Event): (ls: seq<Label<Event>>) {
    [Register(cb), AddPool(cb)] + RoundTo(cb, e) + [ShutDown(cb)] + [Remove(cb)] + [Submit(cb)]
  }

  /** Each of the three races ends the thread: in the first nothing was ever shut down, and in the last
      the callback is no longer registered. */
  lemma EachRaceEndsTheThread<Event>(cb: Callback, e: Event)
    ensures forall ls :: ls in {SubscribeRace(cb, e), ShutDownRace(cb, e), RemovalRace(cb, e)} ==>
              PossibleRun(Fresh<Event>(), ls) && Final(Fresh<Event>(), ls).ended
    ensures cb !in Final(Fresh<Event>(), RemovalRace(cb, e)).pools
  {
    hide AreDistinct;
    var f := Fresh<Event>();
    var none: seq<Label<Event>> := [];
    var registered: seq<Label<Event>> := [Register(cb)];
    var pooled: seq<Label<Event>> := [Register(cb), AddPool(cb)];
    Extend(f, none, Register(cb));
    assert none + [Register(cb)] == registered;
    var p := Pool(Unpooled, 0, [], 0);
    RoundComesTo(registered, cb, e, p);
    Extend(f, registered + RoundTo(cb, e), Submit(cb));
    Extend(f, registered, AddPool(cb));
    assert registered + [AddPool(cb)] == pooled;
    RoundComesTo(pooled, cb, e, p.(stage := Live));
    var l2 := pooled + RoundTo(cb, e);
    Extend(f, l2, ShutDown(cb));
    Extend(f, l2 + [ShutDown(cb)], Submit(cb));
    Extend(f, l2 + [ShutDown(cb)], Remove(cb));
    Extend(f, l2 + [ShutDown(cb)] + [Remove(cb)], Submit(cb));
  }

  /** A callback that is no longer registered when it is tested is passed over: no event is submitted to it, and
      the round goes on with the next one.  Whatever is found registered is submitted to next. */
  lemma RemovedBeforeTheTestIsPassedOver<Event>(s: State<Event>, cb: Callback)
    requires Inv(s) && Enabled(s, Test(cb))
    ensures var t := Apply(s, Test(cb));
            && (Enabled(t, Submit(cb)) <==> cb in s.pools)
            && (cb !in s.pools ==> !Awaits(t.round, cb) && t == s.(round := t.round))
            && (forall c :: c != cb ==> (Awaits(t.round, c) <==> Awaits(s.round, c)))
  {
    assert s.round.ids == [cb] + s.round.ids[1..];
    if cb in s.pools { assert PoolOk(s, cb); }
  }

  /** From then on no callback is handed anything. */
  lemma {:induction false} EndedThreadHandsOutNothing<Event>(s: State<Event>, ls: seq<Label<Event>>, cb: Callback)
    requires s.ended && PossibleRun(s, ls) && cb in s.pools && forall l :: l in ls ==> l != Remove(cb)
    ensures Final(s, ls).ended && Final(s, ls).taken == s.taken
    ensures cb in Final(s, ls).pools && Final(s, ls).pools[cb].submitted == s.pools[cb].submitted
    decreases |ls|
  {
    if ls != [] {
      assert ls[0] in ls;
      assert forall l :: l in ls[1..] ==> l in ls;
      EndedThreadHandsOutNothing(Apply(s, ls[0]), ls[1..], cb);
    }
  }

  function Works<Event>(cb: Callback, n: nat): (ls: seq<Label<Event>>) {
    seq(n, _ => Work(cb))
  }

  /** A worker gets through what its pool was given, one event at a time and alone. */
  lemma {:induction false} WorkersFinish<Event>(s: State<Event>, cb: Callback, n: nat)
    requires cb in s.pools && s.pools[cb].done + n <= |s.pools[cb].submitted|
    ensures PossibleRun(s, Works(cb, n))
    ensures var t := Final(s, Works(cb, n));
            && t == s.(pools := t.pools) && t.pools.Keys == s.pools.Keys
            && (forall c :: c in s.pools && c != cb ==> t.pools[c] == s.pools[c])
            && t.pools[cb].submitted == s.pools[cb].submitted && t.pools[cb].done == s.pools[cb].done + n
            && Processed(t.pools[cb]) == s.pools[cb].submitted[..s.pools[cb].done + n]
    decreases n
  {
    if n > 0 {
      var ls: seq<Label<Event>> := Works(cb, n);
      assert ls[0] == Work(cb) && ls[1..] == Works(cb, n - 1);
      WorkersFinish(Apply(s, ls[0]), cb, n - 1);
    }
  }

  lemma StepOnlyGrows<Event>(s: State<Event>, l: Label<Event>, cb: Callback)
    requires Inv(s) && Enabled(s, l) && cb in s.pools && l != Remove(cb)
    ensures var t := Apply(s, l);
            && cb in t.pools && s.puts <= t.puts && t.pools[cb].from == s.pools[cb].from
            && s.pools[cb].done <= t.pools[cb].done && s.pools[cb].submitted <= t.pools[cb].submitted
  {
  }

  /** A callback that stays subscribed keeps its stretch: the start never moves and nothing handed out or
      processed is taken back. */
  lemma {:induction false} StretchOnlyGrows<Event>(s: State<Event>, ls: seq<Label<Event>>, cb: Callback)
    requires Inv(s) && PossibleRun(s, ls) && cb in s.pools && forall l :: l in ls ==> l != Remove(cb)
    ensures cb in Final(s, ls).pools && s.puts <= Final(s, ls).puts
    ensures Final(s, ls).pools[cb].from == s.pools[cb].from && s.pools[cb].done <= Final(s, ls).pools[cb].done
    ensures s.pools[cb].submitted <= Final(s, ls).pools[cb].submitted
    decreases |ls|
  {
    if ls != [] {
      assert ls[0] in ls;
      StepKeepsRound(s, ls[0]);
      forall c | c in Apply(s, ls[0]).pools ensures PoolOk(Apply(s, ls[0]), c) {
        StepKeepsPool(s, ls[0], c);
      }
      assert forall l :: l in ls[1..] ==> l in ls;
      StepOnlyGrows(s, ls[0], cb);
      StretchOnlyGrows(Apply(s, ls[0]), ls[1..], cb);
    }
  }

  lemma OneMore(xs: seq<string>, i: nat)
    requires AreDistinct(xs) && i < |xs|
    ensures xs[i] !in xs[..i]
    ensures forall x :: x in xs[..i + 1] <==> x in xs[..i] || x == xs[i]
  {
    assert xs[..i + 1] == xs[..i] + [xs[i]];
  }

  /** The subscriber dictionaries and the pools behind them, as one thread changes them. */
  class Subscriptions<Event> {
    /** Subscriber id to its callback ids, in the order they were added. */
    var callbacks: map<string, seq<string>>
    /** What has been submitted to the pool of each callback. */
    var submitted: map<Callback, seq<Event>>

    constructor ()
      ensures Valid() && callbacks == map[] && submitted == map[]
    {
      callbacks, submitted := map[], map[];
    }

    ghost predicate Valid()
      reads this
    {
      && (forall k :: k in callbacks ==> AreDistinct(callbacks[k]))
      && (forall cb :: cb in submitted <==> cb.subscriber in callbacks && cb.id in callbacks[cb.subscriber])
    }

    /** A callback id that is taken already is refused (a ValueError in the program). */
    method Subscribe(cb: Callback) returns (ok: bool)
      requires Valid()
      modifies this
      ensures Valid() && (ok <==> cb !in old(submitted))
      ensures submitted == if ok then old(submitted)[cb := []] else old(submitted)
      ensures callbacks.Keys == old(callbacks).Keys + {cb.subscriber}
    {
      if cb.subscriber !in callbacks {
        callbacks := callbacks[cb.subscriber := []];
      }
      if cb.id in callbacks[cb.subscriber] {
        return false;
      }
      callbacks := callbacks[cb.subscriber := callbacks[cb.subscriber] + [cb.id]];
      submitted := submitted[cb := []];
      ok := true;
    }

    /** The turn of one subscriber id: every callback it has gets the event once. */
    method HandOutTo(key: string, e: Event)
      requires Valid() && key in callbacks
      modifies this`submitted
      ensures Valid() && submitted.Keys == old(submitted).Keys
      ensures forall cb :: cb in submitted ==>
                submitted[cb] == if cb.subscriber == key then old(submitted)[cb] + [e] else old(submitted)[cb]
    {
      hide AreDistinct;
      var ids := callbacks[key];
      for i := 0 to |ids|
        invariant submitted.Keys == old(submitted).Keys
        invariant forall cb :: cb in submitted ==>
                    submitted[cb] == if cb.subscriber == key && cb.id in ids[..i] then old(submitted)[cb] + [e]
                        else old(submitted)[cb]
      {
        var cb := Callback(key, ids[i]);
        OneMore(ids, i);
        assert cb in submitted ==> submitted[cb] == old(submitted)[cb];
        if cb in submitted {
          submitted := submitted[cb := submitted[cb] + [e]];
        }
      }
      assert ids[..|ids|] == ids;
    }

    /** The body of the queue loop for one event, when nobody subscribes meanwhile: `keys` are the
        subscriber ids in sorted order.  Every callback gets the event exactly once. */
    method HandOut(keys: seq<string>, e: Event)
      requires Valid() && AreDistinct(keys) && forall k :: k in keys <==> k in callbacks
      modifies this`submitted
      ensures Valid() && submitted.Keys == old(submitted).Keys
      ensures forall cb :: cb in submitted ==> submitted[cb] == old(submitted)[cb] + [e]
    {
      for i := 0 to |keys|
        invariant Valid() && submitted.Keys == old(submitted).Keys
        invariant forall cb :: cb in submitted ==>
                    submitted[cb] == if cb.subscriber in keys[..i] then old(submitted)[cb] + [e] else old(submitted)[cb]
      {
        OneMore(keys, i);
        HandOutTo(keys[i], e);
      }
      assert keys[..|keys|] == keys;
    }
  }
}
