/** What becomes of a lease whose holder is gone, and who gets it next. */
module ClusterRecovery {
  import opened ClusterLease
  import opened ClusterTiming
  import opened ClusterLaws

  ghost predicate Held(s: State, k: Key) {
    exists slot :: Holds(s, slot, k)
  }

  /** No refresh that would write `k` has been sent and not yet executed. */
  ghost predicate NothingInFlight(s: State, k: Key) {
    && (forall n :: n in s.nodes && s.nodes[n].round.Sent? ==> k !in s.nodes[n].round.keys)
    && (forall keys :: keys in s.lateRefreshes ==> k !in keys)
  }

  predicate Wins(s: State, l: Label, k: Key) {
    l.Attempt? && l.k == k && k !in s.redis
  }

  /** The number of claims of `k` that succeed in a run. */
  ghost function Winners(s: State, ls: seq<Label>, k: Key): nat
    requires PossibleRun(s, ls)
    decreases |ls|
  {
    if ls == [] then 0
    else (if Wins(s, ls[0], k) then 1 else 0) + Winners(Apply(s, ls[0]), ls[1..], k)
  }

  /** Nobody comes to hold a key that nobody holds without winning it. */
  lemma NobodyInheritsAnOrphan(s: State, l: Label, k: Key)
    requires Enabled(s, l) && !Held(s, k) && !Wins(s, l, k)
    ensures !Held(Apply(s, l), k)
  {
    hide Enabled, Apply, Holds;
    forall slot | Holds(Apply(s, l), slot, k) ensures Holds(s, Origin(s, l, slot, k), k) {
      HolderHasOrigin(s, l, slot, k);
    }
  }

  /** A refresh that is sent names keys of the loops of its node, so none that nobody holds. */
  lemma NothingIsSentForAnOrphan(s: State, l: Label, k: Key)
    requires Enabled(s, l) && !Held(s, k) && NothingInFlight(s, k)
    ensures NothingInFlight(Apply(s, l), k)
  {
    var t := Apply(s, l);
    forall n | n in t.nodes && t.nodes[n].round.Sent? ensures k !in t.nodes[n].round.keys {
      if l.Snapshot? && l.n == n {
        assert !Holds(s, Running(n), k);
      } else {
        RoundStays(s, l, n);
      }
    }
    NothingLateForAnOrphan(s, l, k);
  }

  /** Only a snapshot sends a refresh. */
  lemma RoundStays(s: State, l: Label, n: nat)
    requires Enabled(s, l) && n in Apply(s, l).nodes && Apply(s, l).nodes[n].round.Sent? && l != Snapshot(n)
    ensures n in s.nodes && s.nodes[n].round == Apply(s, l).nodes[n].round
  {
  }

  lemma NothingLateForAnOrphan(s: State, l: Label, k: Key)
    requires Enabled(s, l) && NothingInFlight(s, k)
    ensures forall keys :: keys in Apply(s, l).lateRefreshes ==> k !in keys
  {
  }

  lemma OrphanKeepsItsExpiry(s: State, l: Label, k: Key)
    requires Enabled(s, l) && !Held(s, k) && NothingInFlight(s, k) && !Wins(s, l, k)
    ensures k in Apply(s, l).redis <==> k in s.redis && (l.Tick? ==> Apply(s, l).now < s.redis[k])
    ensures k in Apply(s, l).redis ==> Apply(s, l).redis[k] == s.redis[k]
  {
    RedisChangesExactlyBy(s, l, k);
    if l.Tick? { TimePasses(s, l); }
    hide Apply;
    if l.Delete? { assert !Holds(s, Closing(l.n), k); }
    if l.LandDelete? { assert !Holds(s, Late, k); }
  }

  lemma TimePasses(s: State, l: Label)
    requires Enabled(s, l) && l.Tick?
    ensures Apply(s, l).now == s.now + l.d
  {
  }

  lemma OrphanStaysOrphan(s: State, l: Label, k: Key)
    requires Enabled(s, l) && !Held(s, k) && NothingInFlight(s, k) && !Wins(s, l, k)
    ensures !Held(Apply(s, l), k) && NothingInFlight(Apply(s, l), k)
    ensures k in Apply(s, l).redis <==> k in s.redis && (l.Tick? ==> Apply(s, l).now < s.redis[k])
    ensures k in Apply(s, l).redis ==> Apply(s, l).redis[k] == s.redis[k]
  {
    hide *;
    NobodyInheritsAnOrphan(s, l, k);
    NothingIsSentForAnOrphan(s, l, k);
    OrphanKeepsItsExpiry(s, l, k);
  }

  /** A key without a holder and with nothing in flight is in Redis exactly until its expiry, however
      many nodes try to claim it, boot, crash or refresh their own keys meanwhile. */
  lemma {:induction false} OrphanLivesUntilExpiry(s: State, ls: seq<Label>, k: Key)
    requires PossibleRun(s, ls) && Winners(s, ls, k) == 0
    requires !Held(s, k) && NothingInFlight(s, k)
    requires k in s.redis ==> s.now < s.redis[k]
    ensures k in Final(s, ls).redis <==> k in s.redis && Final(s, ls).now < s.redis[k]
    ensures !Held(Final(s, ls), k) && NothingInFlight(Final(s, ls), k)
    decreases |ls|
  {
    if ls != [] {
      OrphanStaysOrphan(s, ls[0], k);
      var t := Apply(s, ls[0]);
      OrphanLivesUntilExpiry(t, ls[1..], k);
      ClockNeverRunsBack(t, ls[1..]);
    }
  }

  lemma {:induction false} ClockNeverRunsBack(s: State, ls: seq<Label>)
    requires PossibleRun(s, ls)
    ensures s.now <= Final(s, ls).now
    decreases |ls|
  {
    if ls != [] {
      ClockNeverRunsBack(Apply(s, ls[0]), ls[1..]);
    }
  }

  /** Whatever is in Redis is live and expires within the entry timeout. */
  ghost predicate ExpiriesOk(s: State) {
    forall k :: k in s.redis ==> s.now < s.redis[k] <= s.now + ENTRY_TIMEOUT
  }

  lemma {:induction false} RunKeepsExpiries(s: State, ls: seq<Label>)
    requires ExpiriesOk(s) && PossibleRun(s, ls)
    ensures ExpiriesOk(Final(s, ls))
    decreases |ls|
  {
    if ls != [] {
      StepKeepsExpiryBound(s, ls[0]);
      RunKeepsExpiries(Apply(s, ls[0]), ls[1..]);
    }
  }

  /** In any run from an empty cluster: once a key has no holder and no refresh of it is in flight, after a
      crash say, it is gone 15 time units later, unless somebody claims it again. */
  lemma CrashedKeyIsGoneInTime(s: State, before: seq<Label>, ls: seq<Label>, k: Key)
    requires Initial(s) && PossibleRun(s, before)
    requires var t := Final(s, before);
             && !Held(t, k) && NothingInFlight(t, k) && PossibleRun(t, ls) && Winners(t, ls, k) == 0
             && t.now + 15.0 <= Final(t, ls).now
    ensures k !in Final(Final(s, before), ls).redis
  {
    RunKeepsExpiries(s, before);
    OrphanLivesUntilExpiry(Final(s, before), ls, k);
  }

  /** A holder of `k` is never lost in the run (it may register, but not fail, crash or finish closing). */
  ghost predicate KeepsHolder(s: State, ls: seq<Label>, k: Key)
    requires PossibleRun(s, ls)
    decreases |ls|
  {
    ls == [] ||
    ((Held(s, k) ==> Held(Apply(s, ls[0]), k)) && KeepsHolder(Apply(s, ls[0]), ls[1..], k))
  }

  lemma {:induction false} HeldKeyHasNoWinner(s: State, ls: seq<Label>, k: Key)
    requires PossibleRun(s, ls) && SafeRun(s, ls) && Exclusive(s) && Held(s, k) && KeepsHolder(s, ls, k)
    ensures Winners(s, ls, k) == 0
    decreases |ls|
  {
    if ls != [] {
      StepKeepsExclusion(s, ls[0]);
      HeldKeyHasNoWinner(Apply(s, ls[0]), ls[1..], k);
    }
  }

  /** Of all the nodes racing for a lapsed key, exactly one claim succeeds, as long as the winner stays. */
  lemma {:induction false} OneRacerWins(s: State, ls: seq<Label>, k: Key)
    requires PossibleRun(s, ls) && SafeRun(s, ls) && Exclusive(s) && KeepsHolder(s, ls, k)
    requires !Held(s, k) && NothingInFlight(s, k) && k !in s.redis
    ensures Winners(s, ls, k) == if exists l :: l in ls && l.Attempt? && l.k == k then 1 else 0
    decreases |ls|
  {
    if ls != [] {
      var l, t := ls[0], Apply(s, ls[0]);
      StepKeepsExclusion(s, l);
      if Wins(s, l, k) {
        assert Holds(t, Starting(l.n), k);
        assert l in ls;
        HeldKeyHasNoWinner(t, ls[1..], k);
      } else {
        OrphanStaysOrphan(s, l, k);
        OneRacerWins(t, ls[1..], k);
        assert forall m :: m in ls <==> m == l || m in ls[1..];
      }
    }
  }

  /** So it is in any timely run from an empty cluster whose bounds fit: the exclusion and the safety the
      race needs come with the timing. */
  lemma OneRacerWinsInTime(s: State, before: seq<Label>, ls: seq<Label>, k: Key, b: Bounds)
    requires Initial(s) && Sensible(b) && Fits(b) && TimelyRun(s, before, b) && PossibleRun(s, before)
    requires var t := Final(s, before);
             && TimelyRun(t, ls, b) && PossibleRun(t, ls) && KeepsHolder(t, ls, k)
             && !Held(t, k) && NothingInFlight(t, k) && k !in t.redis
    ensures Winners(Final(s, before), ls, k) == if exists l :: l in ls && l.Attempt? && l.k == k then 1 else 0
  {
    InitialIsCovered(s, b);
    TimelyRunKeepsCover(s, before, b);
    TimelyRunIsSafe(Final(s, before), ls, b);
    OneRacerWins(Final(s, before), ls, k);
  }
}
