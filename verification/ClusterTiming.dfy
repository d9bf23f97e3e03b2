/** How slow the nodes may be before a lease lapses under its holder. */
module ClusterTiming {
  import opened ClusterLease

  /** `start`: longest time from a claim to the agent loop being in the local dictionary.
      `round`: longest time of a refresh round, immediate retries included.
      `close`: longest time from popping a session to its DEL taking effect. */
  datatype Bounds = Bounds(start: real, round: real, close: real)

  ghost predicate Sensible(b: Bounds) {
    0.0 <= b.start && 0.0 <= b.round && 0.0 <= b.close
  }

  /** A claim can wait out one round that began just too early, one sleep and one more round, and the
      session may be closed just before that round takes effect. */
  ghost predicate Fits(b: Bounds) {
    b.start + UPDATE_INTERVAL + 2.0 * b.round + b.close < ENTRY_TIMEOUT
  }

  /** The time by which the current sleep or round of a node has to be over. */
  function RoundDue(r: Round, b: Bounds): real {
    if r.Sleeping? then r.since + UPDATE_INTERVAL + b.round else r.since + b.round
  }

  ghost predicate NodeTimely(nd: Node, now: real, b: Bounds) {
    && nd.round.since <= now <= RoundDue(nd.round, b)
    && (forall k :: k in nd.starting ==> now <= nd.starting[k] + b.start)
    && (forall k :: k in nd.closing ==> now <= nd.closing[k] + b.close)
  }

  /** No node is later than its bounds allow. */
  ghost predicate Timely(s: State, b: Bounds) {
    && (forall n :: n in s.nodes ==> NodeTimely(s.nodes[n], s.now, b))
    && (forall k :: k in s.lateDeletes ==> s.now <= s.lateDeletes[k] + b.close)
  }

  /** A possible run in which time never passes a bound and no conversation id is empty (a round
      skips empty ids, so such a lease is never refreshed). */
  ghost predicate TimelyRun(s: State, ls: seq<Label>, b: Bounds)
    decreases |ls|
  {
    ls == [] ||
    (&& Enabled(s, ls[0])
     && (ls[0].Tick? ==> Timely(Apply(s, ls[0]), b))
     && (ls[0].Attempt? ==> ls[0].k.sid != "")
     && TimelyRun(Apply(s, ls[0]), ls[1..], b))
  }

  /** When, at the latest, a round that includes the running key `k` takes effect. */
  function NextRefresh(r: Round, k: Key, b: Bounds): real {
    match r
    case Sleeping(t) => t + UPDATE_INTERVAL + b.round
    case Scanning(t) => t + b.round
    case Sent(keys, t) => if k in keys then t + b.round else t + b.round + UPDATE_INTERVAL + b.round
    case Applied(t) => t + b.round + UPDATE_INTERVAL + b.round
  }

  /** A lease outlives, by its close time, whatever its holder is doing. */
  ghost predicate LeaseCovers(s: State, slot: Slot, k: Key, b: Bounds)
    requires Holds(s, slot, k)
  {
    && k in s.redis
    && k.sid != ""
    && match slot
       case Starting(n) => s.nodes[n].starting[k] <= s.now && s.nodes[n].starting[k] + ENTRY_TIMEOUT <= s.redis[k]
       case Running(n) => NextRefresh(s.nodes[n].round, k, b) + b.close < s.redis[k]
       case Closing(n) => s.nodes[n].closing[k] + b.close < s.redis[k]
       case Late => s.lateDeletes[k] + b.close < s.redis[k]
  }

  ghost predicate Covered(s: State, b: Bounds) {
    && (forall k :: k in s.redis ==> s.redis[k] <= s.now + ENTRY_TIMEOUT)
    && (forall slot, k :: Holds(s, slot, k) ==> LeaseCovers(s, slot, k, b))
  }

  /** Once everything is covered and nobody is late, time cannot pass an expiry of a held key. */
  lemma TimelyTickIsSafe(s: State, d: real, b: Bounds)
    requires Sensible(b) && Fits(b) && Covered(s, b)
    requires 0.0 <= d && Timely(s.(now := s.now + d), b)
    ensures Safe(s, Tick(d))
  {
    forall k, slot | Holds(s, slot, k) && k in s.redis
      ensures s.now + d < s.redis[k]
    {
      assert LeaseCovers(s, slot, k, b);
    }
  }

  lemma NodeStaysTimely(s: State, l: Label, b: Bounds, n: nat)
    requires Sensible(b) && Enabled(s, l) && !l.Tick? && n in Apply(s, l).nodes
    requires n in s.nodes ==> NodeTimely(s.nodes[n], s.now, b)
    ensures NodeTimely(Apply(s, l).nodes[n], s.now, b)
  {
  }

  lemma LateDeletesStayTimely(s: State, l: Label, b: Bounds)
    requires Timely(s, b) && Enabled(s, l) && !l.Tick?
    ensures forall k :: k in Apply(s, l).lateDeletes ==> s.now <= Apply(s, l).lateDeletes[k] + b.close
  {
    if l.Crash? || l.DeleteFails? {
      assert NodeTimely(s.nodes[l.n], s.now, b);
    }
  }

  lemma StepKeepsTimely(s: State, l: Label, b: Bounds)
    requires Sensible(b) && Timely(s, b) && Enabled(s, l)
    requires l.Tick? ==> Timely(Apply(s, l), b)
    ensures Timely(Apply(s, l), b)
  {
    hide NodeTimely;
    if !l.Tick? {
      LateDeletesStayTimely(s, l, b);
      forall n | n in Apply(s, l).nodes ensures NodeTimely(Apply(s, l).nodes[n], s.now, b) {
        NodeStaysTimely(s, l, b, n);
      }
    }
  }

  lemma StepKeepsExpiryBound(s: State, l: Label)
    requires Enabled(s, l)
    requires forall k :: k in s.redis ==> s.redis[k] <= s.now + ENTRY_TIMEOUT
    ensures forall k :: k in Apply(s, l).redis ==> Apply(s, l).redis[k] <= Apply(s, l).now + ENTRY_TIMEOUT
    // a step other than a tick never brings an expiry forward
    ensures forall k :: k in s.redis && k in Apply(s, l).redis ==> s.redis[k] <= Apply(s, l).redis[k]
  {
  }

  // What one step leaves of the cover of one holder, other than a fresh claim, slot by slot.

  lemma StartingWasStarting(s: State, l: Label, n: nat, k: Key)
    requires Enabled(s, l) && Holds(Apply(s, l), Starting(n), k)
    requires Holds(s, Origin(s, l, Starting(n), k), k)
    ensures Holds(s, Starting(n), k) && Origin(s, l, Starting(n), k) == Starting(n)
    ensures !(l.Attempt? && l.n == n && l.k == k && k !in s.redis) ==>
              Apply(s, l).nodes[n].starting[k] == s.nodes[n].starting[k]
    ensures s.now <= Apply(s, l).now
  {
  }

  lemma StartingStaysCovered(s: State, l: Label, b: Bounds, slot: Slot, k: Key)
    requires Sensible(b) && Fits(b) && Timely(s, b) && Enabled(s, l)
    requires slot.Starting? && Holds(Apply(s, l), slot, k) && k in Apply(s, l).redis
    requires k in s.redis ==> s.redis[k] <= Apply(s, l).redis[k]
    requires Holds(s, Origin(s, l, slot, k), k) && LeaseCovers(s, Origin(s, l, slot, k), k, b)
    ensures LeaseCovers(Apply(s, l), slot, k, b)
  {
    hide Apply, Enabled, Origin, Timely, Fits, Sensible;
    StartingWasStarting(s, l, slot.n, k);
  }

  lemma NodeIsTimely(s: State, n: nat, b: Bounds)
    requires Timely(s, b) && n in s.nodes
    ensures NodeTimely(s.nodes[n], s.now, b)
  {
  }

  lemma RegisteredIsCovered(s: State, b: Bounds, n: nat, k: Key)
    requires Sensible(b) && Fits(b) && Timely(s, b) && Enabled(s, Register(n, k)) && Holds(s, Starting(n), k)
    requires Holds(Apply(s, Register(n, k)), Running(n), k) && LeaseCovers(s, Starting(n), k, b)
    ensures LeaseCovers(Apply(s, Register(n, k)), Running(n), k, b)
  {
    hide Timely;
    NodeIsTimely(s, n, b);
  }

  lemma StillRunningIsCovered(s: State, l: Label, b: Bounds, n: nat, k: Key)
    requires Sensible(b) && Fits(b) && Timely(s, b) && Enabled(s, l) && Holds(s, Running(n), k)
    requires Holds(Apply(s, l), Running(n), k) && k in Apply(s, l).redis
    requires k in s.redis ==> s.redis[k] <= Apply(s, l).redis[k]
    requires LeaseCovers(s, Running(n), k, b)
    ensures LeaseCovers(Apply(s, l), Running(n), k, b)
  {
    hide Timely;
    NodeIsTimely(s, n, b);
    if l == Snapshot(n) {
      assert k in LoopKeys(s.nodes[n].loops) by { assert k == Key(s.nodes[n].loops[k.sid], k.sid); }
    }
  }

  lemma RunningStaysCovered(s: State, l: Label, b: Bounds, slot: Slot, k: Key)
    requires Sensible(b) && Fits(b) && Timely(s, b) && Enabled(s, l)
    requires slot.Running? && Holds(Apply(s, l), slot, k) && k in Apply(s, l).redis
    requires k in s.redis ==> s.redis[k] <= Apply(s, l).redis[k]
    requires Holds(s, Origin(s, l, slot, k), k) && LeaseCovers(s, Origin(s, l, slot, k), k, b)
    ensures LeaseCovers(Apply(s, l), slot, k, b)
  {
    hide Apply, Enabled, Timely, Fits, Sensible, LeaseCovers, Holds;
    if l == Register(slot.n, k) {
      RegisteredIsCovered(s, b, slot.n, k);
    } else {
      StillRunningIsCovered(s, l, b, slot.n, k);
    }
  }

  lemma ClosingStaysCovered(s: State, l: Label, b: Bounds, slot: Slot, k: Key)
    requires Sensible(b) && Fits(b) && Timely(s, b) && Enabled(s, l)
    requires slot.Closing? && Holds(Apply(s, l), slot, k) && k in Apply(s, l).redis
    requires k in s.redis ==> s.redis[k] <= Apply(s, l).redis[k]
    requires Holds(s, Origin(s, l, slot, k), k) && LeaseCovers(s, Origin(s, l, slot, k), k, b)
    ensures LeaseCovers(Apply(s, l), slot, k, b)
  {
    assert NodeTimely(s.nodes[slot.n], s.now, b);
  }

  lemma LateStaysCovered(s: State, l: Label, b: Bounds, slot: Slot, k: Key)
    requires Sensible(b) && Fits(b) && Timely(s, b) && Enabled(s, l)
    requires slot.Late? && Holds(Apply(s, l), slot, k) && k in Apply(s, l).redis
    requires k in s.redis ==> s.redis[k] <= Apply(s, l).redis[k]
    requires Holds(s, Origin(s, l, slot, k), k) && LeaseCovers(s, Origin(s, l, slot, k), k, b)
    ensures LeaseCovers(Apply(s, l), slot, k, b)
  {
    assert l.Crash? || l.DeleteFails? ==> NodeTimely(s.nodes[l.n], s.now, b);
  }

  lemma StepKeepsCover(s: State, l: Label, b: Bounds)
    requires Sensible(b) && Fits(b) && Covered(s, b) && Exclusive(s) && Timely(s, b)
    requires Safe(s, l)
    requires l.Attempt? ==> l.k.sid != ""
    requires l.Tick? ==> Timely(Apply(s, l), b)
    ensures Covered(Apply(s, l), b) && Timely(Apply(s, l), b)
  {
    StepKeepsTimely(s, l, b);
    StepKeepsExpiryBound(s, l);
    StepKeepsExclusion(s, l);
    forall slot, k | Holds(Apply(s, l), slot, k)
      ensures LeaseCovers(Apply(s, l), slot, k, b)
    {
      if !(l.Attempt? && l.k == k && k !in s.redis && slot == Starting(l.n)) {
        HolderHasOrigin(s, l, slot, k);
        match slot
        case Starting(n) => StartingStaysCovered(s, l, b, slot, k);
        case Running(n) => RunningStaysCovered(s, l, b, slot, k);
        case Closing(n) => ClosingStaysCovered(s, l, b, slot, k);
        case Late => LateStaysCovered(s, l, b, slot, k);
      }
    }
  }

  lemma TimelyStepIsSafe(s: State, l: Label, b: Bounds)
    requires Sensible(b) && Fits(b) && Covered(s, b) && Enabled(s, l)
    requires l.Tick? ==> Timely(Apply(s, l), b)
    ensures Safe(s, l)
  {
    if l.Tick? {
      assert Timely(s.(now := s.now + l.d), b) by { assert Timely(Apply(s, l), b); }
      TimelyTickIsSafe(s, l.d, b);
    }
  }

  /** Lease timing: when the bounds fit, no timely run ever lets a held key lapse. */
  lemma {:induction false} TimelyRunIsSafe(s: State, ls: seq<Label>, b: Bounds)
    requires Sensible(b) && Fits(b) && Covered(s, b) && Exclusive(s) && Timely(s, b)
    requires TimelyRun(s, ls, b)
    ensures SafeRun(s, ls)
    decreases |ls|
  {
    if ls != [] {
      TimelyStepIsSafe(s, ls[0], b);
      StepKeepsCover(s, ls[0], b);
      StepKeepsExclusion(s, ls[0]);
      TimelyRunIsSafe(Apply(s, ls[0]), ls[1..], b);
    }
  }

  lemma {:induction false} TimelyRunKeepsCover(s: State, ls: seq<Label>, b: Bounds)
    requires Sensible(b) && Fits(b) && Covered(s, b) && Exclusive(s) && Timely(s, b)
    requires TimelyRun(s, ls, b)
    ensures PossibleRun(s, ls)
    ensures Covered(Final(s, ls), b) && Exclusive(Final(s, ls)) && Timely(Final(s, ls), b)
    decreases |ls|
  {
    if ls != [] {
      TimelyStepIsSafe(s, ls[0], b);
      StepKeepsCover(s, ls[0], b);
      StepKeepsExclusion(s, ls[0]);
      TimelyRunKeepsCover(Apply(s, ls[0]), ls[1..], b);
    }
  }

  /** An empty cluster meets the conditions above. */
  lemma InitialIsCovered(s: State, b: Bounds)
    requires Initial(s) && Sensible(b)
    ensures Covered(s, b) && Exclusive(s) && Timely(s, b)
  {
    InitialIsExclusive(s);
    forall slot, k ensures !Holds(s, slot, k) {
      match slot
      case Starting(n) =>
      case Running(n) =>
      case Closing(n) =>
      case Late =>
    }
  }

  /** From an empty cluster: a timely run is safe, hence leases are exclusive in its every state. */
  lemma LeasesNeverLapse(s: State, ls: seq<Label>, b: Bounds)
    requires Initial(s) && Sensible(b) && TimelyRun(s, ls, b)
    requires b.start + 5.0 + 2.0 * b.round + b.close < 15.0
    ensures SafeRun(s, ls) && PossibleRun(s, ls) && Exclusive(Final(s, ls))
  {
    InitialIsCovered(s, b);
    TimelyRunIsSafe(s, ls, b);
    Exclusion(s, ls);
  }
}
