/** What the steps of the cluster do to leases and holders, said step by step without the state machine. */
module ClusterLaws {
  import opened ClusterLease

  /** The step writes `k` with the full time to live. */
  predicate Writes(s: State, l: Label, k: Key) {
    || (l.Attempt? && l.k == k && k !in s.redis)
    || (l.Execute? && l.n in s.nodes && s.nodes[l.n].round.Sent? && k in s.nodes[l.n].round.keys)
    || (l.LandRefresh? && k in l.keys)
  }

  /** The step deletes `k`, or lets its expiry pass. */
  predicate Removes(s: State, l: Label, k: Key) {
    || ((l.Delete? || l.LandDelete?) && l.k == k)
    || (l.Tick? && k in s.redis && s.redis[k] <= s.now + l.d)
  }

  lemma WritersChange(s: State, l: Label, k: Key)
    requires Enabled(s, l) && (l.Attempt? || l.Execute? || l.LandRefresh?)
    ensures var t := Apply(s, l);
            && (k in t.redis <==> Writes(s, l, k) || (k in s.redis && !Removes(s, l, k)))
            && (k in t.redis ==> t.redis[k] == if Writes(s, l, k) then s.now + 15.0 else s.redis[k])
  {
  }

  lemma OthersWriteNothing(s: State, l: Label, k: Key)
    requires Enabled(s, l) && !l.Attempt? && !l.Execute? && !l.LandRefresh?
    ensures var t := Apply(s, l);
            && (k in t.redis <==> Writes(s, l, k) || (k in s.redis && !Removes(s, l, k)))
            && (k in t.redis ==> t.redis[k] == if Writes(s, l, k) then s.now + 15.0 else s.redis[k])
  {
  }

  /** A lease is written by a claim that finds none and by a refresh that names it, for 15 seconds each time;
      it goes with its DEL or its expiry; nothing else touches it. */
  lemma RedisChangesExactlyBy(s: State, l: Label, k: Key)
    requires Enabled(s, l)
    ensures var t := Apply(s, l);
            && (k in t.redis <==> Writes(s, l, k) || (k in s.redis && !Removes(s, l, k)))
            && (k in t.redis ==> t.redis[k] == if Writes(s, l, k) then s.now + 15.0 else s.redis[k])
  {
    hide *;
    if l.Attempt? || l.Execute? || l.LandRefresh? {
      WritersChange(s, l, k);
    } else {
      OthersWriteNothing(s, l, k);
    }
  }

  /** The step makes slot `a` hold `k`. */
  predicate Enters(s: State, l: Label, a: Slot, k: Key) {
    match a
    case Starting(n) => l == Attempt(n, k) && k !in s.redis
    case Running(n) => l == Register(n, k)
    case Closing(n) => l == Pop(n, k.sid) && Holds(s, Running(n), k)
    case Late =>
      || (l.DeleteFails? && l.k == k && l.late)
      || (l.Crash? && Holds(s, Closing(l.n), k) && k in l.lateKeys)
  }

  /** The step makes slot `a` let go of `k`.  A second user under the session id replaces the first. */
  predicate Leaves(l: Label, a: Slot, k: Key) {
    match a
    case Starting(n) => l == Register(n, k) || l == StartFails(n, k) || (l.Crash? && l.n == n)
    case Running(n) =>
      || l == Pop(n, k.sid) || (l.Crash? && l.n == n)
      || (l.Register? && l.n == n && l.k.sid == k.sid && l.k.user != k.user)
    case Closing(n) => l == Delete(n, k) || (l.DeleteFails? && l.n == n && l.k == k) || (l.Crash? && l.n == n)
    case Late => l == LandDelete(k)
  }

  /** The steps of refreshing, and the passing of time. */
  predicate OfRound(l: Label) {
    l.WakeUp? || l.Snapshot? || l.Execute? || l.RoundEnds? || l.RoundFails? || l.LandRefresh? || l.Tick?
  }

  lemma RoundsKeepHolders(s: State, l: Label, a: Slot, k: Key)
    requires Enabled(s, l) && OfRound(l)
    ensures Holds(Apply(s, l), a, k) <==> Holds(s, a, k)
  {
  }

  lemma StartersChange(s: State, l: Label, a: Slot, k: Key)
    requires Enabled(s, l) && a.Starting? && !OfRound(l)
    ensures Holds(Apply(s, l), a, k) <==> Enters(s, l, a, k) || (Holds(s, a, k) && !Leaves(l, a, k))
  {
  }

  lemma RunnersChange(s: State, l: Label, a: Slot, k: Key)
    requires Enabled(s, l) && a.Running? && !OfRound(l)
    ensures Holds(Apply(s, l), a, k) <==> Enters(s, l, a, k) || (Holds(s, a, k) && !Leaves(l, a, k))
  {
  }

  lemma ClosersChange(s: State, l: Label, a: Slot, k: Key)
    requires Enabled(s, l) && a.Closing? && !OfRound(l)
    ensures Holds(Apply(s, l), a, k) <==> Enters(s, l, a, k) || (Holds(s, a, k) && !Leaves(l, a, k))
  {
  }

  lemma LateChange(s: State, l: Label, a: Slot, k: Key)
    requires Enabled(s, l) && a.Late? && !OfRound(l)
    ensures Holds(Apply(s, l), a, k) <==> Enters(s, l, a, k) || (Holds(s, a, k) && !Leaves(l, a, k))
  {
  }

  /** Who holds a key after a step: who came to hold it by the step or held it and has not let go. */
  lemma HoldersChangeExactlyBy(s: State, l: Label, a: Slot, k: Key)
    requires Enabled(s, l)
    ensures Holds(Apply(s, l), a, k) <==> Enters(s, l, a, k) || (Holds(s, a, k) && !Leaves(l, a, k))
  {
    hide Enabled, Apply, Holds;
    if OfRound(l) {
      RoundsKeepHolders(s, l, a, k);
    } else {
      match a
      case Starting(_) => StartersChange(s, l, a, k);
      case Running(_) => RunnersChange(s, l, a, k);
      case Closing(_) => ClosersChange(s, l, a, k);
      case Late => LateChange(s, l, a, k);
    }
  }

  /** A round renews every lease of the loops of its node and touches no other, and ends in a sleep of five
      seconds; a round that fails before it has written anything starts again without sleeping. */
  lemma RoundRenews(s: State, n: nat, k: Key)
    requires n in s.nodes && s.nodes[n].round.Scanning?
    ensures var ls := [Snapshot(n), Execute(n), RoundEnds(n)];
            && PossibleRun(s, ls)
            && var t := Final(s, ls);
            && (k in t.redis <==> k in s.redis || (Holds(s, Running(n), k) && k.sid != ""))
            && (k in t.redis ==>
                  t.redis[k] == if Holds(s, Running(n), k) && k.sid != "" then s.now + 15.0 else s.redis[k])
            && t.nodes == s.nodes[n := s.nodes[n].(round := Sleeping(s.now))]
            && (forall d :: 0.0 <= d ==> (Enabled(Apply(t, Tick(d)), WakeUp(n)) <==> d >= 5.0))
    ensures forall late :: Enabled(s, RoundFails(n, late)) && Apply(s, RoundFails(n, late)) == s
  {
    LoopKeysAre(s.nodes[n].loops, k);
    RoundRuns(s, n);
    FailedScan(s, n);
    hide Enabled, Apply, PossibleRun, Final, LoopKeys;
    SleepsFiveSeconds(Final(s, [Snapshot(n), Execute(n), RoundEnds(n)]), n);
  }

  lemma RoundRuns(s: State, n: nat)
    requires n in s.nodes && s.nodes[n].round.Scanning?
    ensures var ls := [Snapshot(n), Execute(n), RoundEnds(n)];
            && PossibleRun(s, ls)
            && Final(s, ls) == s.(redis := Refreshed(s.redis, LoopKeys(s.nodes[n].loops), s.now),
                                  nodes := s.nodes[n := s.nodes[n].(round := Sleeping(s.now))])
  {
    hide PossibleRun, Final, Refreshed, LoopKeys;
    RunOfThree(s, Snapshot(n), Execute(n), RoundEnds(n));
  }

  lemma FailedScan(s: State, n: nat)
    requires n in s.nodes && s.nodes[n].round.Scanning?
    ensures forall late :: Enabled(s, RoundFails(n, late)) && Apply(s, RoundFails(n, late)) == s
  {
    assert s.nodes[n := s.nodes[n]] == s.nodes;
  }

  lemma SleepsFiveSeconds(t: State, n: nat)
    requires n in t.nodes && t.nodes[n].round == Sleeping(t.now)
    ensures forall d :: 0.0 <= d ==> (Enabled(Apply(t, Tick(d)), WakeUp(n)) <==> d >= 5.0)
  {
  }

  lemma LoopKeysAre(loops: map<string, string>, k: Key)
    ensures k in LoopKeys(loops) <==> k.sid != "" && k.sid in loops && loops[k.sid] == k.user
  {
    assert k == Key(k.user, k.sid);
  }

  lemma RunOfThree(s: State, a: Label, b: Label, l: Label)
    requires Enabled(s, a) && Enabled(Apply(s, a), b) && Enabled(Apply(Apply(s, a), b), l)
    ensures PossibleRun(s, [a, b, l]) && Final(s, [a, b, l]) == Apply(Apply(Apply(s, a), b), l)
  {
    hide Apply, Enabled;
    var s1 := Apply(s, a);
    var s2 := Apply(s1, b);
    var none: seq<Label> := [];
    assert [l][1..] == none && [b, l][1..] == [l] && [a, b, l][1..] == [b, l];
    assert PossibleRun(Apply(s2, l), none) && Final(Apply(s2, l), none) == Apply(s2, l);
    assert PossibleRun(s2, [l]) && Final(s2, [l]) == Apply(s2, l);
    assert PossibleRun(s1, [b, l]) && Final(s1, [b, l]) == Apply(s2, l);
  }

  /** A round that fails, or whose node crashes, after its refresh was sent: if the refresh still reaches Redis
      it renews its keys then, and otherwise it is never heard of again. */
  lemma LostRefreshMayLand(s: State, n: nat, l: Label)
    requires n in s.nodes && s.nodes[n].round.Sent? && Enabled(s, l)
    requires (l.RoundFails? || l.Crash?) && l.n == n
    ensures var t, late, keys := Apply(s, l), if l.RoundFails? then l.late else l.lateRefresh, s.nodes[n].round.keys;
            && (late ==> Enabled(t, LandRefresh(keys)) && Apply(t, LandRefresh(keys)).lateRefreshes == s.lateRefreshes)
            && (!late ==> t.lateRefreshes == s.lateRefreshes)
  {
  }
}
