/** One node of the cluster as the object it is: dictionaries that its coroutines update in place.
    Each method is one stretch of code between two awaits, and its contract says which step of the
    protocol in ClusterLease it performs; StoppedConversations reads one state of Redis where the program
    scans it. */
module ClusterManager {
  import opened ClusterLease
  import opened Util

  lemma RefreshNothing(redis: map<Key, real>, now: real)
    ensures Refreshed(redis, Elements<Key>([]), now) == redis
  {
  }

  lemma RefreshOneMore(redis: map<Key, real>, ks: set<Key>, k: Key, now: real)
    ensures Refreshed(redis, ks + {k}, now) == Refreshed(redis, ks, now)[k := now + ENTRY_TIMEOUT]
  {
  }

  lemma LoopKeysCollected(pipe: seq<Key>, loops: map<string, string>)
    requires Elements(pipe) == LoopKeys(loops)
    ensures forall k :: k in pipe <==> k.sid != "" && k.sid in loops && loops[k.sid] == k.user
  {
    forall k: Key ensures k in pipe <==> k.sid != "" && k.sid in loops && loops[k.sid] == k.user {
      assert k in pipe <==> k in Elements(pipe);
      assert k == Key(k.user, k.sid);
    }
  }

  lemma RefreshesExactly(redis: map<Key, real>, pipe: seq<Key>, now: real)
    ensures var after := Refreshed(redis, Elements(pipe), now);
            && after.Keys == redis.Keys + Elements(pipe)
            && forall k :: k in after ==> after[k] == if k in pipe then now + 15.0 else redis[k]
  {
  }

  /** The part of Redis the protocol uses: keys with an expiry time, and the server's clock. */
  class RedisClient {
    var now: real
    var keys: map<Key, real>

    constructor ()
      ensures now == 0.0 && keys == map[]
    {
      now, keys := 0.0, map[];
    }

    /** SET key 1 NX EX 15. */
    method SetIfAbsent(k: Key) returns (created: bool)
      modifies this`keys
      ensures created <==> k !in old(keys)
      ensures keys == if created then WithKey(old(keys), k, now) else old(keys)
      ensures created ==> keys == old(keys)[k := now + 15.0]
    {
      created := k !in keys;
      if created {
        keys := keys[k := now + ENTRY_TIMEOUT];
      }
    }

    /** The commands of a pipeline, in order. */
    method ExecutePipeline(pipe: seq<Key>)
      modifies this`keys
      ensures keys == Refreshed(old(keys), Elements(pipe), now)
      ensures keys.Keys == old(keys).Keys + Elements(pipe)
      ensures forall k :: k in keys ==> keys[k] == if k in pipe then now + 15.0 else old(keys)[k]
    {
      hide Elements, Refreshed;
      RefreshNothing(keys, now);
      for i := 0 to |pipe|
        invariant keys == Refreshed(old(keys), Elements(pipe[..i]), now)
      {
        ElementsOfSnoc(pipe, i);
        RefreshOneMore(old(keys), Elements(pipe[..i]), pipe[i], now);
        keys := keys[pipe[i] := now + ENTRY_TIMEOUT];
      }
      assert pipe[..|pipe|] == pipe;
      RefreshesExactly(old(keys), pipe, now);
    }

    method Delete(ks: seq<Key>)
      modifies this`keys
      ensures keys == old(keys) - Elements(ks)
    {
      for i := 0 to |ks|
        invariant keys == old(keys) - Elements(ks[..i])
      {
        ElementsOfSnoc(ks, i);
        keys := keys - {ks[i]};
      }
      assert ks[..|ks|] == ks;
    }
  }

  class ClusteredConversationManager {
    const redis: RedisClient
    var starting: map<Key, real>
    var loops: map<string, string>
    var closing: map<Key, real>
    var round: Round
    var connections: map<string, string>

    constructor (redis: RedisClient)
      ensures this.redis == redis && connections == map[]
      ensures View() == Booting.(round := Scanning(redis.now))
    {
      this.redis := redis;
      starting, loops, closing, connections := map[], map[], map[], map[];
      round := Scanning(redis.now);
    }

    ghost function View(): Node
      reads this
    {
      Node(starting, loops, closing, round)
    }

    /** The first half of maybe_start_agent_loop: the step `Attempt`. */
    method Claim(k: Key) returns (created: bool)
      modifies this`starting, redis`keys
      ensures created <==> k !in old(redis.keys)
      ensures redis.keys == if created then WithKey(old(redis.keys), k, redis.now) else old(redis.keys)
      ensures View() == if created then Claimed(old(View()), k, redis.now) else old(View())
    {
      created := redis.SetIfAbsent(k);
      if created {
        starting := starting[k := redis.now];
      }
    }

    /** The end of _start_agent_loop: the step `Register`. */
    method InsertLoop(k: Key)
      requires k in starting
      modifies this`starting, this`loops
      ensures View() == Registered(old(View()), k)
    {
      starting := starting - {k};
      loops := loops[k.sid := k.user];
    }

    /** The last half of maybe_start_agent_loop: is there an event store to hand out? */
    method FindEventStore(k: Key) returns (found: bool)
      ensures found <==> k.sid in loops || k in redis.keys
    {
      if k.sid in loops {
        return true;
      }
      found := k in redis.keys;
    }

    /** The commands a refresh round collects for the local agent loops: the step `Snapshot`. */
    method CollectRefresh() returns (pipe: seq<Key>)
      requires round.Scanning?
      modifies this`round
      ensures Elements(pipe) == LoopKeys(loops)
      ensures forall k :: k in pipe <==> k.sid != "" && k.sid in loops && loops[k.sid] == k.user
      ensures View() == old(View()).(round := Sent(LoopKeys(loops), old(round).since))
    {
      pipe := [];
      var todo := loops.Keys;
      ghost var done := {};
      while todo != {}
        invariant round == old(round) && done + todo == loops.Keys && done !! todo
        invariant Elements(pipe) == set sid | sid in done && sid in loops && sid != "" :: Key(loops[sid], sid)
        decreases todo
      {
        var sid :| sid in todo;
        todo := todo - {sid};
        done := done + {sid};
        if sid != "" {
          ElementsOfAppended(pipe, Key(loops[sid], sid));
          pipe := pipe + [Key(loops[sid], sid)];
        }
      }
      LoopKeysCollected(pipe, loops);
      round := Sent(LoopKeys(loops), round.since);
    }

    /** pipe.execute() taking effect: the step `Execute`. */
    method Refresh(pipe: seq<Key>)
      requires round.Sent? && round.keys == Elements(pipe)
      modifies this`round, redis`keys
      ensures redis.keys == Refreshed(old(redis.keys), old(round).keys, redis.now)
      ensures View() == old(View()).(round := Applied(old(round).since))
    {
      redis.ExecutePipeline(pipe);
      round := Applied(round.since);
    }

    /** The start of _close_session: the local connections of a session, each once. */
    method ConnectionsOf(sid: string) returns (ids: seq<string>)
      ensures Elements(ids) == (set c | c in connections && connections[c] == sid) && AreDistinct(ids)
    {
      ids := [];
      var todo := set c | c in connections && connections[c] == sid;
      ghost var all := todo;
      while todo != {}
        invariant Elements(ids) + todo == all && Elements(ids) !! todo && AreDistinct(ids)
        decreases todo
      {
        var c :| c in todo;
        ElementsOfAppended(ids, c);
        assert forall i :: 0 <= i < |ids| ==> ids[i] in Elements(ids);
        todo := todo - {c};
        ids := ids + [c];
      }
    }

    /** One turn of its loop, after the connection is closed: others may have come or gone meanwhile. */
    method RemoveConnection(c: string)
      modifies this`connections
      ensures connections == old(connections) - {c}
    {
      connections := connections - {c};
    }

    /** The session leaves the dictionary: the step `Pop`. */
    method PopSession(sid: string) returns (key: Option<Key>)
      modifies this`loops, this`closing
      ensures key == if sid in old(loops) then Some(Key(old(loops)[sid], sid)) else None
      ensures View() == if sid in old(loops) then Popped(old(View()), sid, redis.now) else old(View())
    {
      if sid in loops {
        key := Some(Key(loops[sid], sid));
        closing := closing[key.value := redis.now];
        loops := loops - {sid};
      } else {
        key := None;
      }
    }

    /** The DEL of _close_session taking effect: the step `Delete`. */
    method DeleteKey(k: Key)
      requires k in closing
      modifies this`closing, redis`keys
      ensures redis.keys == old(redis.keys) - {k}
      ensures View() == old(View()).(closing := old(closing) - {k})
    {
      ElementsOfAppended([], k);
      assert [] + [k] == [k];
      redis.Delete([k]);
      closing := closing - {k};
    }

    /** The conversations _disconnect_from_stopped tries to restart here: those with a local connection
        whose agent loop is neither local nor leased by anyone. */
    method StoppedConversations() returns (stopped: set<string>)
      ensures forall sid :: sid in stopped <==>
        && (exists c :: c in connections && connections[c] == sid)
        && sid !in loops
        && (forall k :: k in redis.keys ==> k.sid != sid)
    {
      var runningRemote := {};
      var todo := redis.keys.Keys;
      ghost var seen: set<Key> := {};
      while todo != {}
        invariant seen + todo == redis.keys.Keys
        invariant forall sid :: sid in runningRemote <==> exists k :: k in seen && k.sid == sid
        decreases todo
      {
        var k :| k in todo;
        todo := todo - {k};
        seen := seen + {k};
        runningRemote := runningRemote + {k.sid};
      }
      stopped := (set c | c in connections :: connections[c]) - loops.Keys - runningRemote;
    }
  }
}
