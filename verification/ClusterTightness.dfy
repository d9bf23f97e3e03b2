/** The timing condition of ClusterTiming is exact: as soon as it fails, some timely run of a single
    node lets the key it holds lapse. */
module ClusterTightness {
  import opened ClusterLease
  import opened ClusterTiming

  ghost predicate CanLapse(s: State, b: Bounds) {
    exists ls :: TimelyRun(s, ls, b) && !SafeRun(s, ls)
  }

  lemma OneStepEarlier(s: State, l: Label, b: Bounds)
    requires Enabled(s, l) && CanLapse(Apply(s, l), b)
    requires l.Tick? ==> Timely(Apply(s, l), b)
    requires l.Attempt? ==> l.k.sid != ""
    ensures CanLapse(s, b)
  {
    var ls :| TimelyRun(Apply(s, l), ls, b) && !SafeRun(Apply(s, l), ls);
    var ms := [l] + ls;
    assert ms[0] == l && ms[1..] == ls;
    assert TimelyRun(s, ms, b) && !SafeRun(s, ms);
  }

  /** A cluster of one node and one key, with nothing left behind by crashes. */
  function One(now: real, k: Key, e: real, nd: Node): State {
    State(now, map[k := e], map[0 := nd], multiset{}, map[])
  }

  lemma WaitingEarlier(now: real, d: real, k: Key, e: real, nd: Node, slot: Slot, b: Bounds)
    requires 0.0 <= d && NodeTimely(nd, now + d, b)
    requires Holds(One(now, k, e, nd), slot, k)
    requires now + d < e ==> CanLapse(One(now + d, k, e, nd), b)
    ensures CanLapse(One(now, k, e, nd), b)
  {
    var s := One(now, k, e, nd);
    var t := Apply(s, Tick(d));
    assert Timely(t, b);
    if now + d < e {
      assert t == One(now + d, k, e, nd);
      OneStepEarlier(s, Tick(d), b);
    } else {
      assert !Safe(s, Tick(d));
      assert TimelyRun(s, [Tick(d)], b) by { assert TimelyRun(t, [], b); }
      assert !SafeRun(s, [Tick(d)]);
    }
  }

  lemma NodeStepEarlier(now: real, k: Key, e: real, nd: Node, l: Label, nd': Node, b: Bounds)
    requires Enabled(One(now, k, e, nd), l) && !l.Tick? && !l.Attempt?
    requires Apply(One(now, k, e, nd), l) == One(now, k, e, nd')
    requires CanLapse(One(now, k, e, nd'), b)
    ensures CanLapse(One(now, k, e, nd), b)
  {
    OneStepEarlier(One(now, k, e, nd), l, b);
  }

  /** A round of no length, on a node without agent loops. */
  lemma EmptyRoundEarlier(now: real, k: Key, e: real, nd: Node, b: Bounds)
    requires nd.loops == map[] && nd.round.Scanning?
    requires CanLapse(One(now, k, e, nd.(round := Sleeping(now))), b)
    ensures CanLapse(One(now, k, e, nd), b)
  {
    hide CanLapse;
    var t := nd.round.since;
    RoundEndsEarlier(now, k, e, nd.(round := Sent({}, t)), b);
    assert LoopKeys(map[]) == {};
    assert Apply(One(now, k, e, nd), Snapshot(0)) == One(now, k, e, nd.(round := Sent({}, t)));
    NodeStepEarlier(now, k, e, nd, Snapshot(0), nd.(round := Sent({}, t)), b);
  }

  lemma AppliedEndsEarlier(now: real, k: Key, e: real, nd: Node, b: Bounds)
    requires nd.round.Applied? && CanLapse(One(now, k, e, nd.(round := Sleeping(now))), b)
    ensures CanLapse(One(now, k, e, nd), b)
  {
    assert Apply(One(now, k, e, nd), RoundEnds(0)) == One(now, k, e, nd.(round := Sleeping(now)));
    NodeStepEarlier(now, k, e, nd, RoundEnds(0), nd.(round := Sleeping(now)), b);
  }

  lemma RoundEndsEarlier(now: real, k: Key, e: real, nd: Node, b: Bounds)
    requires nd.round.Sent? && nd.round.keys == {}
    requires CanLapse(One(now, k, e, nd.(round := Sleeping(now))), b)
    ensures CanLapse(One(now, k, e, nd), b)
  {
    var applied := nd.(round := Applied(nd.round.since));
    AppliedEndsEarlier(now, k, e, applied, b);
    assert Refreshed(map[k := e], {}, now) == map[k := e];
    assert Apply(One(now, k, e, nd), Execute(0)) == One(now, k, e, applied);
    NodeStepEarlier(now, k, e, nd, Execute(0), applied, b);
  }

  lemma WakeEarlier(u: real, k: Key, e: real, nd: Node, b: Bounds)
    requires nd.round.Sleeping? && u == nd.round.since + UPDATE_INTERVAL
    requires CanLapse(One(u, k, e, nd.(round := Scanning(u))), b)
    ensures CanLapse(One(u, k, e, nd), b)
  {
    assert Apply(One(u, k, e, nd), WakeUp(0)) == One(u, k, e, nd.(round := Scanning(u)));
    NodeStepEarlier(u, k, e, nd, WakeUp(0), nd.(round := Scanning(u)), b);
  }

  /** The node sleeps out its interval and wakes, unless the key lapses before. */
  lemma SleepEarlier(now: real, k: Key, e: real, nd: Node, slot: Slot, b: Bounds)
    requires Sensible(b) && nd.round.Sleeping? && nd.round.since <= now <= nd.round.since + UPDATE_INTERVAL
    requires NodeTimely(nd, nd.round.since + UPDATE_INTERVAL, b)
    requires Holds(One(now, k, e, nd), slot, k)
    requires nd.round.since + UPDATE_INTERVAL < e ==>
               CanLapse(One(nd.round.since + UPDATE_INTERVAL, k, e,
                   nd.(round := Scanning(nd.round.since + UPDATE_INTERVAL))), b)
    ensures CanLapse(One(now, k, e, nd), b)
  {
    var u := nd.round.since + UPDATE_INTERVAL;
    if u < e { WakeEarlier(u, k, e, nd, b); }
    WaitingEarlier(now, u - now, k, e, nd, slot, b);
  }

  /** Closing for as long as allowed, through as many rounds as it takes. */
  lemma {:induction false} SlowCloseLapses(now: real, k: Key, e: real, popped: real, since: real, b: Bounds, n: nat)
    requires Sensible(b) && popped <= now && since <= now <= since + UPDATE_INTERVAL
    requires now <= e <= popped + b.close && e <= since + UPDATE_INTERVAL * (n as real)
    ensures CanLapse(One(now, k, e, Node(map[], map[], map[k := popped], Sleeping(since))), b)
    decreases n
  {
    hide CanLapse;
    var nd := Node(map[], map[], map[k := popped], Sleeping(since));
    var u := since + UPDATE_INTERVAL;
    assert Holds(One(now, k, e, nd), Closing(0), k);
    if e <= u {
      WaitingEarlier(now, e - now, k, e, nd, Closing(0), b);
    } else {
      SlowCloseLapses(u, k, e, popped, u, b, n - 1);
      EmptyRoundEarlier(u, k, e, nd.(round := Scanning(u)), b);
      SleepEarlier(now, k, e, nd, Closing(0), b);
    }
  }

  lemma NextMultiple(x: real) returns (n: nat)
    requires 0.0 <= x
    ensures x < UPDATE_INTERVAL * (n as real) <= x + UPDATE_INTERVAL
  {
    var q := (x / UPDATE_INTERVAL).Floor;
    assert q >= 0;
    n := q + 1;
  }

  lemma PopEarlier(u: real, k: Key, e: real, round: Round, b: Bounds)
    requires CanLapse(One(u, k, e, Node(map[], map[], map[k := u], round)), b)
    ensures CanLapse(One(u, k, e, Node(map[], map[k.sid := k.user], map[], round)), b)
  {
    var running := Node(map[], map[k.sid := k.user], map[], round);
    var popped := Node(map[], map[], map[k := u], round);
    assert Key(k.user, k.sid) == k;
    assert map[k.sid := k.user] - {k.sid} == map[];
    assert Popped(running, k.sid, u) == popped;
    assert Apply(One(u, k, e, running), Pop(0, k.sid)) == One(u, k, e, popped);
    NodeStepEarlier(u, k, e, running, Pop(0, k.sid), popped, b);
  }

  lemma PoppedLapses(u: real, k: Key, e: real, r: real, b: Bounds)
    requires Sensible(b) && u <= e <= u + b.close
    ensures CanLapse(One(u, k, e, Node(map[], map[k.sid := k.user], map[], Scanning(r))), b)
  {
    var n := NextMultiple(e - u);
    SlowCloseLapses(u, k, e, u, u, b, n);
    EmptyRoundEarlier(u, k, e, Node(map[], map[], map[k := u], Scanning(r)), b);
    PopEarlier(u, k, e, Scanning(r), b);
  }

  /** Popped just before the snapshot of a round that is itself as late as allowed. */
  lemma LatePopLapses(r: real, k: Key, e: real, b: Bounds)
    requires Sensible(b) && e <= r + b.round + b.close && r <= e
    ensures CanLapse(One(r, k, e, Node(map[], map[k.sid := k.user], map[], Scanning(r))), b)
  {
    if r + b.round < e {
      PoppedLapses(r + b.round, k, e, r, b);
    }
    WaitingEarlier(r, b.round, k, e, Node(map[], map[k.sid := k.user], map[], Scanning(r)), Running(0), b);
  }

  /** Registered just after the snapshot of a round that then takes as long as allowed. */
  lemma MissedRoundLapses(r: real, k: Key, e: real, b: Bounds)
    requires Sensible(b) && e <= r + b.round + UPDATE_INTERVAL + b.round + b.close && r <= e
    ensures CanLapse(One(r, k, e, Node(map[], map[k.sid := k.user], map[], Sent({}, r))), b)
  {
    hide CanLapse;
    var sent := Node(map[], map[k.sid := k.user], map[], Sent({}, r));
    var u := r + b.round;
    if u < e {
      AfterMissedRoundLapses(u, k, e, b);
      RoundEndsEarlier(u, k, e, sent, b);
    }
    WaitingEarlier(r, b.round, k, e, sent, Running(0), b);
  }

  /** Asleep after a round that missed the key. */
  lemma AfterMissedRoundLapses(u: real, k: Key, e: real, b: Bounds)
    requires Sensible(b) && e <= u + UPDATE_INTERVAL + b.round + b.close && u <= e
    ensures CanLapse(One(u, k, e, Node(map[], map[k.sid := k.user], map[], Sleeping(u))), b)
  {
    if u + UPDATE_INTERVAL < e { LatePopLapses(u + UPDATE_INTERVAL, k, e, b); }
    SleepEarlier(u, k, e, Node(map[], map[k.sid := k.user], map[], Sleeping(u)), Running(0), b);
  }

  /** The agent loop enters the dictionary between the snapshot and the rest of the round. */
  lemma RegisterEarlier(u: real, k: Key, e: real, c: real, b: Bounds)
    requires CanLapse(One(u, k, e, Node(map[], map[k.sid := k.user], map[], Sent({}, u))), b)
    ensures CanLapse(One(u, k, e, Node(map[k := c], map[], map[], Scanning(u))), b)
  {
    var awake := Node(map[k := c], map[], map[], Scanning(u));
    var sent := awake.(round := Sent({}, u));
    var running := Node(map[], map[k.sid := k.user], map[], Sent({}, u));
    assert Registered(sent, k) == running;
    NodeStepEarlier(u, k, e, sent, Register(0, k), running, b);
    assert LoopKeys(map[]) == {};
    NodeStepEarlier(u, k, e, awake, Snapshot(0), sent, b);
  }

  /** Starting for as long as allowed: `c + b.start` is the `n`-th waking of the refresh task. */
  lemma {:induction false} SlowStartLapses(now: real, k: Key, c: real, since: real, b: Bounds, n: nat)
    requires Sensible(b) && !Fits(b) && n > 0
    requires c <= now && since <= now <= since + UPDATE_INTERVAL && now < c + ENTRY_TIMEOUT
    requires c + b.start == since + UPDATE_INTERVAL * (n as real)
    ensures CanLapse(One(now, k, c + ENTRY_TIMEOUT, Node(map[k := c], map[], map[], Sleeping(since))), b)
    decreases n
  {
    hide CanLapse;
    var e := c + ENTRY_TIMEOUT;
    var nd := Node(map[k := c], map[], map[], Sleeping(since));
    var u := since + UPDATE_INTERVAL;
    assert Holds(One(now, k, e, nd), Starting(0), k);
    if e <= u {
      WaitingEarlier(now, e - now, k, e, nd, Starting(0), b);
    } else {
      if n == 1 {
        MissedRoundLapses(u, k, e, b);
        RegisterEarlier(u, k, e, c, b);
      } else {
        SlowStartLapses(u, k, c, u, b, n - 1);
        EmptyRoundEarlier(u, k, e, nd.(round := Scanning(u)), b);
      }
      SleepEarlier(now, k, e, nd, Starting(0), b);
    }
  }

  lemma EmptyStepEarlier(now: real, nd: Node, l: Label, nd': Node, b: Bounds)
    requires Enabled(State(now, map[], map[0 := nd], multiset{}, map[]), l) && !l.Tick? && !l.Attempt?
    requires Apply(State(now, map[], map[0 := nd], multiset{}, map[]), l)
             == State(now, map[], map[0 := nd'], multiset{}, map[])
    requires CanLapse(State(now, map[], map[0 := nd'], multiset{}, map[]), b)
    ensures CanLapse(State(now, map[], map[0 := nd], multiset{}, map[]), b)
  {
    OneStepEarlier(State(now, map[], map[0 := nd], multiset{}, map[]), l, b);
  }

  /** A node boots at time 0 and runs a first, empty round. */
  lemma FirstRoundEarlier(b: Bounds)
    requires CanLapse(State(0.0, map[], map[0 := Node(map[], map[], map[], Sleeping(0.0))], multiset{}, map[]), b)
    ensures CanLapse(State(0.0, map[], map[], multiset{}, map[]), b)
  {
    hide CanLapse;
    var scanning := Node(map[], map[], map[], Scanning(0.0));
    var sent := Node(map[], map[], map[], Sent({}, 0.0));
    var applied := Node(map[], map[], map[], Applied(0.0));
    EmptyStepEarlier(0.0, applied, RoundEnds(0), Node(map[], map[], map[], Sleeping(0.0)), b);
    assert Refreshed(map[], {}, 0.0) == map[];
    EmptyStepEarlier(0.0, sent, Execute(0), applied, b);
    assert LoopKeys(map[]) == {};
    EmptyStepEarlier(0.0, scanning, Snapshot(0), sent, b);
    var s0 := State(0.0, map[], map[], multiset{}, map[]);
    assert Apply(s0, Boot(0)) == State(0.0, map[], map[0 := scanning], multiset{}, map[]);
    OneStepEarlier(s0, Boot(0), b);
  }

  lemma ClaimEarlier(c: real, k: Key, b: Bounds)
    requires Sensible(b) && 0.0 <= c <= UPDATE_INTERVAL && k.sid != ""
    requires CanLapse(One(c, k, c + ENTRY_TIMEOUT, Node(map[k := c], map[], map[], Sleeping(0.0))), b)
    ensures CanLapse(State(0.0, map[], map[0 := Node(map[], map[], map[], Sleeping(0.0))], multiset{}, map[]), b)
  {
    var s4 := State(0.0, map[], map[0 := Node(map[], map[], map[], Sleeping(0.0))], multiset{}, map[]);
    var s5 := s4.(now := c);
    assert Apply(s5, Attempt(0, k)) == One(c, k, c + ENTRY_TIMEOUT, Node(map[k := c], map[], map[], Sleeping(0.0)));
    OneStepEarlier(s5, Attempt(0, k), b);
    assert Apply(s4, Tick(c)) == s5;
    assert Timely(s5, b);
    OneStepEarlier(s4, Tick(c), b);
  }

  /** The run that leads from an empty cluster to such a claim. */
  lemma EmptyClusterCanLapse(k: Key, b: Bounds)
    requires Sensible(b) && !Fits(b) && k.sid != ""
    ensures CanLapse(State(0.0, map[], map[], multiset{}, map[]), b)
  {
    var n := NextMultiple(b.start);
    var c := UPDATE_INTERVAL * (n as real) - b.start;
    SlowStartLapses(c, k, c, 0.0, b, n);
    ClaimEarlier(c, k, b);
    FirstRoundEarlier(b);
  }

  ghost predicate NeverLapses(b: Bounds) {
    forall s, ls :: Initial(s) && TimelyRun(s, ls, b) ==> SafeRun(s, ls)
  }

  /** The bounds fit inside the 15 second entry timeout if and only if no timely run from an empty
      cluster, of any number of nodes and keys, ever lets a held key lapse. */
  lemma BoundsAreExact(b: Bounds)
    requires Sensible(b)
    ensures b.start + 5.0 + 2.0 * b.round + b.close < 15.0 <==> NeverLapses(b)
  {
    if Fits(b) {
      forall s, ls | Initial(s) && TimelyRun(s, ls, b) ensures SafeRun(s, ls) {
        LeasesNeverLapse(s, ls, b);
      }
    } else {
      var s := State(0.0, map[], map[], multiset{}, map[]);
      EmptyClusterCanLapse(Key("user", "sid"), b);
      assert Initial(s);
      var ls :| TimelyRun(s, ls, b) && !SafeRun(s, ls);
      assert NeverLapses(b) ==> SafeRun(s, ls);
    }
  }
}
