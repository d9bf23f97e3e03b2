/** The timing condition decides mutual exclusion itself: as soon as it fails, some timely run lets two
    nodes hold one key. */
module ClusterSharing {
  import opened ClusterLease
  import opened ClusterTiming
  import opened ClusterTightness

  ghost predicate OneHolder(s: State) {
    forall k, x, y :: Holds(s, x, k) && Holds(s, y, k) ==> x == y
  }

  ghost predicate HeldAreNamed(s: State) {
    forall k, slot :: Holds(s, slot, k) ==> k.sid != ""
  }

  ghost predicate CanShare(s: State, b: Bounds) {
    exists ls :: TimelyRun(s, ls, b) && PossibleRun(s, ls) && !OneHolder(Final(s, ls))
  }

  lemma {:induction false} TimelyRunIsPossible(s: State, ls: seq<Label>, b: Bounds)
    requires TimelyRun(s, ls, b)
    ensures PossibleRun(s, ls)
    decreases |ls|
  {
    if ls != [] {
      TimelyRunIsPossible(Apply(s, ls[0]), ls[1..], b);
    }
  }

  lemma ShareOneStepEarlier(s: State, l: Label, b: Bounds)
    requires Enabled(s, l) && CanShare(Apply(s, l), b)
    requires l.Tick? ==> Timely(Apply(s, l), b)
    requires l.Attempt? ==> l.k.sid != ""
    ensures CanShare(s, b)
  {
    var ls :| TimelyRun(Apply(s, l), ls, b) && PossibleRun(Apply(s, l), ls) && !OneHolder(Final(Apply(s, l), ls));
    var ms := [l] + ls;
    assert ms[0] == l && ms[1..] == ls;
    assert TimelyRun(s, ms, b) && PossibleRun(s, ms) && Final(s, ms) == Final(Apply(s, l), ls);
  }

  lemma {:induction false} FreshNode(taken: set<nat>) returns (n: nat)
    ensures n !in taken && forall m :: m in taken ==> m < n
  {
    if taken == {} {
      n := 0;
    } else {
      var m :| m in taken;
      var above := FreshNode(taken - {m});
      n := if m < above then above else m + 1;
      assert forall x :: x in taken ==> x == m || x in taken - {m};
    }
  }

  /** Once a held key has lapsed, the next node to try gets it as well. */
  lemma LapsedKeyIsShared(s: State, slot: Slot, k: Key, b: Bounds)
    requires Holds(s, slot, k) && k !in s.redis && k.sid != ""
    ensures CanShare(s, b)
  {
    var n := FreshNode(s.nodes.Keys);
    var t := Apply(s, Boot(n));
    var u := Apply(t, Attempt(n, k));
    assert Holds(t, slot, k) && Holds(u, slot, k) && Holds(u, Starting(n), k);
    assert slot != Starting(n);
    assert TimelyRun(u, [], b) && PossibleRun(u, []) && Final(u, []) == u;
    assert CanShare(u, b);
    ShareOneStepEarlier(t, Attempt(n, k), b);
    ShareOneStepEarlier(s, Boot(n), b);
  }

  lemma StepKeepsNamed(s: State, l: Label)
    requires HeldAreNamed(s) && Enabled(s, l) && (l.Attempt? ==> l.k.sid != "")
    ensures HeldAreNamed(Apply(s, l))
  {
    forall k, slot | Holds(Apply(s, l), slot, k) ensures k.sid != "" {
      if !(l.Attempt? && l.k == k) {
        HolderHasOrigin(s, l, slot, k);
      }
    }
  }

  lemma {:induction false} LapseLetsTwoHold(s: State, ls: seq<Label>, b: Bounds)
    requires HeldAreNamed(s) && TimelyRun(s, ls, b) && !SafeRun(s, ls)
    ensures CanShare(s, b)
    decreases |ls|
  {
    var l, t := ls[0], Apply(s, ls[0]);
    StepKeepsNamed(s, l);
    if Safe(s, l) {
      LapseLetsTwoHold(t, ls[1..], b);
    } else {
      var k, slot :| Holds(s, slot, k) && k in s.redis && !(s.now + l.d < s.redis[k]);
      assert Holds(t, slot, k) && k !in t.redis;
      LapsedKeyIsShared(t, slot, k, b);
    }
    ShareOneStepEarlier(s, l, b);
  }

  ghost predicate NeverShared(b: Bounds) {
    forall s, ls :: Initial(s) && TimelyRun(s, ls, b) && PossibleRun(s, ls) ==> OneHolder(Final(s, ls))
  }

  /** No timely run from an empty cluster ever has two holders of one key if and only if the longest
      start, two refresh rounds, one interval and the longest close fit inside the entry timeout. */
  lemma ExclusionExactlyWhenBoundsFit(b: Bounds)
    requires Sensible(b)
    ensures b.start + 5.0 + 2.0 * b.round + b.close < 15.0 <==> NeverShared(b)
  {
    if Fits(b) {
      forall s, ls | Initial(s) && TimelyRun(s, ls, b) && PossibleRun(s, ls) ensures OneHolder(Final(s, ls)) {
        LeasesNeverLapse(s, ls, b);
      }
    } else {
      var s := State(0.0, map[], map[], multiset{}, map[]);
      EmptyClusterCanLapse(Key("user", "sid"), b);
      var ls :| TimelyRun(s, ls, b) && !SafeRun(s, ls);
      LapseLetsTwoHold(s, ls, b);
      var ms :| TimelyRun(s, ms, b) && PossibleRun(s, ms) && !OneHolder(Final(s, ms));
      assert Initial(s);
    }
  }
}
