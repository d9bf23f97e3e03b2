/** The lease protocol by which server nodes share conversations.

    A conversation key in Redis is a lease with a time to live.  A node claims it with SET NX EX,
    a background task on every node rewrites the keys of the node's own agent loops, and closing a
    session pops it from the local dictionary first and deletes the key afterwards.  Every step below
    is one stretch of code between two awaits, or one command taking effect inside Redis; the steps
    of any number of nodes interleave freely. */
module ClusterLease {

  const ENTRY_TIMEOUT: real := 15.0
  const UPDATE_INTERVAL: real := 5.0

  datatype Key = Key(user: string, sid: string)

  /** Where the refresh task of a node is; `since` is when the sleep or the round began. */
  datatype Round =
    | Sleeping(since: real)
    | Scanning(since: real)
    | Sent(keys: set<Key>, since: real)
    | Applied(since: real)

  /** `starting`: claimed, agent loop not yet in the dictionary, with the time of the claim.
      `loops`: the dictionary of local agent loops, session id to user id.
      `closing`: popped from the dictionary, DEL not yet executed, with the time of the pop. */
  datatype Node = Node(starting: map<Key, real>, loops: map<string, string>, closing: map<Key, real>, round: Round)

  /** `redis` maps a live key to its expiry time.  Commands sent by a node that has since crashed, or
      whose reply was lost, may still reach Redis: `lateRefreshes` and `lateDeletes`. */
  datatype State = State(
    now: real,
    redis: map<Key, real>,
    nodes: map<nat, Node>,
    lateRefreshes: multiset<set<Key>>,
    lateDeletes: map<Key, real>)

  datatype Label =
    | Boot(n: nat)
    | Attempt(n: nat, k: Key)
    | Register(n: nat, k: Key)
    | StartFails(n: nat, k: Key)
    | WakeUp(n: nat)
    | Snapshot(n: nat)
    | Execute(n: nat)
    | RoundEnds(n: nat)
    | RoundFails(n: nat, late: bool)
    | Pop(n: nat, sid: string)
    | Delete(n: nat, k: Key)
    | DeleteFails(n: nat, k: Key, late: bool)
    | Crash(n: nat, lateRefresh: bool, lateKeys: set<Key>)
    | LandRefresh(keys: set<Key>)
    | LandDelete(k: Key)
    | Tick(d: real)

  // ----- what one node does -----

  const Booting: Node := Node(map[], map[], map[], Scanning(0.0))

  function WithKey(redis: map<Key, real>, k: Key, now: real): map<Key, real> {
    redis[k := now + ENTRY_TIMEOUT]
  }

  /** SET key 1 EX 15 for every key of a pipeline. */
  function Refreshed(redis: map<Key, real>, keys: set<Key>, now: real): map<Key, real> {
    redis + map k | k in keys :: now + ENTRY_TIMEOUT
  }

  function Claimed(nd: Node, k: Key, now: real): Node {
    nd.(starting := nd.starting[k := now])
  }

  function Registered(nd: Node, k: Key): Node {
    nd.(starting := nd.starting - {k}, loops := nd.loops[k.sid := k.user])
  }

  /** The keys a round writes: one per local agent loop whose session id is not empty. */
  function LoopKeys(loops: map<string, string>): set<Key> {
    set sid | sid in loops && sid != "" :: Key(loops[sid], sid)
  }

  function Popped(nd: Node, sid: string, now: real): Node
    requires sid in nd.loops
  {
    nd.(loops := nd.loops - {sid}, closing := nd.closing[Key(nd.loops[sid], sid) := now])
  }

  // ----- the cluster -----

  predicate Enabled(s: State, l: Label) {
    match l
    case Boot(n) => n !in s.nodes
    case Attempt(n, k) => n in s.nodes
    case Register(n, k) => n in s.nodes && k in s.nodes[n].starting
    case StartFails(n, k) => n in s.nodes && k in s.nodes[n].starting
    case WakeUp(n) => n in s.nodes && s.nodes[n].round.Sleeping? && s.nodes[n].round.since + UPDATE_INTERVAL <= s.now
    case Snapshot(n) => n in s.nodes && s.nodes[n].round.Scanning?
    case Execute(n) => n in s.nodes && s.nodes[n].round.Sent?
    case RoundEnds(n) => n in s.nodes && s.nodes[n].round.Applied?
    case RoundFails(n, late) => n in s.nodes && !s.nodes[n].round.Sleeping?
    case Pop(n, sid) => n in s.nodes && sid in s.nodes[n].loops
    case Delete(n, k) => n in s.nodes && k in s.nodes[n].closing
    case DeleteFails(n, k, late) => n in s.nodes && k in s.nodes[n].closing
    case Crash(n, late, lateKeys) => n in s.nodes
    case LandRefresh(keys) => keys in s.lateRefreshes
    case LandDelete(k) => k in s.lateDeletes
    case Tick(d) => 0.0 <= d
  }

  function LateAfter(s: State, round: Round, late: bool): multiset<set<Key>> {
    if round.Sent? && late then s.lateRefreshes + multiset{round.keys} else s.lateRefreshes
  }

  function Apply(s: State, l: Label): State
    requires Enabled(s, l)
  {
    match l
    case Boot(n) => s.(nodes := s.nodes[n := Booting.(round := Scanning(s.now))])
    case Attempt(n, k) =>
      if k in s.redis then s
      else s.(redis := WithKey(s.redis, k, s.now), nodes := s.nodes[n := Claimed(s.nodes[n], k, s.now)])
    case Register(n, k) => s.(nodes := s.nodes[n := Registered(s.nodes[n], k)])
    case StartFails(n, k) => s.(nodes := s.nodes[n := s.nodes[n].(starting := s.nodes[n].starting - {k})])
    case WakeUp(n) =>
      s.(nodes := s.nodes[n := s.nodes[n].(round := Scanning(s.nodes[n].round.since + UPDATE_INTERVAL))])
    case Snapshot(n) =>
      s.(nodes := s.nodes[n := s.nodes[n].(round := Sent(LoopKeys(s.nodes[n].loops), s.nodes[n].round.since))])
    case Execute(n) =>
      s.(redis := Refreshed(s.redis, s.nodes[n].round.keys, s.now),
         nodes := s.nodes[n := s.nodes[n].(round := Applied(s.nodes[n].round.since))])
    case RoundEnds(n) => s.(nodes := s.nodes[n := s.nodes[n].(round := Sleeping(s.now))])
    case RoundFails(n, late) =>
      // the exception handler loops at once, without sleeping
      s.(nodes := s.nodes[n := s.nodes[n].(round := Scanning(s.nodes[n].round.since))],
         lateRefreshes := LateAfter(s, s.nodes[n].round, late))
    case Pop(n, sid) => s.(nodes := s.nodes[n := Popped(s.nodes[n], sid, s.now)])
    case Delete(n, k) =>
      s.(redis := s.redis - {k}, nodes := s.nodes[n := s.nodes[n].(closing := s.nodes[n].closing - {k})])
    case DeleteFails(n, k, late) =>
      // the session is gone; the key stays, unless the command still reaches Redis
      s.(nodes := s.nodes[n := s.nodes[n].(closing := s.nodes[n].closing - {k})],
         lateDeletes := if late then s.lateDeletes[k := s.nodes[n].closing[k]] else s.lateDeletes)
    case Crash(n, late, lateKeys) =>
      s.(nodes := s.nodes - {n},
         lateRefreshes := LateAfter(s, s.nodes[n].round, late),
         lateDeletes := s.lateDeletes + map k | k in s.nodes[n].closing && k in lateKeys :: s.nodes[n].closing[k])
    case LandRefresh(keys) =>
      s.(redis := Refreshed(s.redis, keys, s.now), lateRefreshes := s.lateRefreshes - multiset{keys})
    case LandDelete(k) => s.(redis := s.redis - {k}, lateDeletes := s.lateDeletes - {k})
    case Tick(d) => s.(now := s.now + d, redis := map k | k in s.redis && s.now + d < s.redis[k] :: s.redis[k])
  }

  ghost predicate Initial(s: State) {
    s.redis == map[] && s.nodes == map[] && s.lateRefreshes == multiset{} && s.lateDeletes == map[]
  }

  // ----- who holds a key -----

  datatype Slot = Starting(n: nat) | Running(n: nat) | Closing(n: nat) | Late

  /** A node holds a key from a successful claim until its DEL has been executed. */
  predicate Holds(s: State, slot: Slot, k: Key) {
    match slot
    case Starting(n) => n in s.nodes && k in s.nodes[n].starting
    case Running(n) => n in s.nodes && k.sid in s.nodes[n].loops && s.nodes[n].loops[k.sid] == k.user
    case Closing(n) => n in s.nodes && k in s.nodes[n].closing
    case Late => k in s.lateDeletes
  }

  /** At most one holder per key, and every held key is live in Redis. */
  ghost predicate Exclusive(s: State) {
    && (forall k, a, b :: Holds(s, a, k) && Holds(s, b, k) ==> a == b)
    && (forall k, a :: Holds(s, a, k) ==> k in s.redis)
  }

  /** A step that does not let a held key lapse. */
  ghost predicate Safe(s: State, l: Label) {
    && Enabled(s, l)
    && (l.Tick? ==> forall k, a :: Holds(s, a, k) && k in s.redis ==> s.now + l.d < s.redis[k])
  }

  /** The run `ls` is possible from `s` and no step of it lets a held key lapse. */
  ghost predicate SafeRun(s: State, ls: seq<Label>)
    decreases |ls|
  {
    ls == [] || (Safe(s, ls[0]) && SafeRun(Apply(s, ls[0]), ls[1..]))
  }

  ghost predicate PossibleRun(s: State, ls: seq<Label>)
    decreases |ls|
  {
    ls == [] || (Enabled(s, ls[0]) && PossibleRun(Apply(s, ls[0]), ls[1..]))
  }

  ghost function Final(s: State, ls: seq<Label>): State
    requires PossibleRun(s, ls)
    decreases |ls|
  {
    if ls == [] then s else Final(Apply(s, ls[0]), ls[1..])
  }

  lemma {:induction false} SafeRunIsPossible(s: State, ls: seq<Label>)
    requires SafeRun(s, ls)
    ensures PossibleRun(s, ls)
    decreases |ls|
  {
    if ls != [] {
      SafeRunIsPossible(Apply(s, ls[0]), ls[1..]);
    }
  }

  // ----- exclusion -----

  /** Where the holder of `k` in slot `a` after step `l` was before it. */
  ghost function Origin(s: State, l: Label, a: Slot, k: Key): Slot
    requires Enabled(s, l)
  {
    match l
    case Register(n, k') => if k == k' && a == Running(n) then Starting(n) else a
    case Pop(n, sid) => if a == Closing(n) && k == Key(s.nodes[n].loops[sid], sid) then Running(n) else a
    case DeleteFails(n, k', late) => if a == Late && late && k == k' then Closing(n) else a
    case Crash(n, late, lateKeys) =>
      if a == Late && k in s.nodes[n].closing && k in lateKeys then Closing(n) else a
    case _ => a
  }

  lemma HolderHasOrigin(s: State, l: Label, a: Slot, k: Key)
    requires Enabled(s, l) && Holds(Apply(s, l), a, k)
    requires !(l.Attempt? && l.k == k && k !in s.redis && a == Starting(l.n))
    ensures Holds(s, Origin(s, l, a, k), k)
  {
  }

  lemma StepKeepsExclusion(s: State, l: Label)
    requires Exclusive(s) && Safe(s, l)
    ensures Exclusive(Apply(s, l))
  {
    var t := Apply(s, l);
    forall k, a | Holds(t, a, k)
      ensures k in t.redis
      ensures forall b :: Holds(t, b, k) ==> a == b
    {
      if l.Attempt? && l.k == k && k !in s.redis {
        assert forall b :: !Holds(s, b, k);
        forall b | Holds(t, b, k) ensures b == Starting(l.n) {
          if b != Starting(l.n) { HolderHasOrigin(s, l, b, k); }
        }
      } else {
        HolderHasOrigin(s, l, a, k);
        if l.Delete? { assert Holds(s, Closing(l.n), l.k); }
        if l.LandDelete? { assert Holds(s, Late, l.k); }
        forall b | Holds(t, b, k) ensures a == b {
          HolderHasOrigin(s, l, b, k);
        }
      }
    }
  }

  /** Lease exclusion: in every state of every run in which no held key is left to lapse, whatever
      stale refreshes, closes, failures and crashes are interleaved, a key has at most one holder and
      that key is live in Redis. */
  lemma {:induction false} Exclusion(s: State, ls: seq<Label>)
    requires Exclusive(s) && SafeRun(s, ls)
    ensures PossibleRun(s, ls) && Exclusive(Final(s, ls))
    decreases |ls|
  {
    if ls != [] {
      StepKeepsExclusion(s, ls[0]);
      Exclusion(Apply(s, ls[0]), ls[1..]);
    }
  }

  lemma InitialIsExclusive(s: State)
    requires Initial(s)
    ensures Exclusive(s)
  {
    forall k, a ensures !Holds(s, a, k) {
      match a
      case Starting(n) =>
      case Running(n) =>
      case Closing(n) =>
      case Late =>
    }
  }
}
