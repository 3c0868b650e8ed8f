/** One pod's orchestrator as the object it is: a cache that is merged and swept in
    place, slices built by loops over a map in any order and sorted in place, and
    calls that change the Redis role and the pod label.

    The Redis client is a nullable reference that only a witness lacks, so every
    use of it below is proved not to happen on a witness. */
module Orchestration {
  import opened Wrappers
  import opened PodOrder
  import opened Reconciliation
  import opened PeerCache
  import opened Election

  // What one sync meets outside the process.
  datatype Env = Env(
    infoOk: bool,                // the first INFO call answered
    pingOk: bool,                // the PING call answered
    now: int,
    replies: Cache,              // peers that answered, by pod name
    leader: bool,                // what the Raft library answers
    linkDown: bool,              // the second INFO call answered and says "down"
    outcome: Call -> Outcome)

  class RedisServer {
    var master: bool
    constructor (m: bool) ensures master == m { master := m; }
  }

  // Keys lists the members of s, each once.
  ghost predicate Lists(keys: seq<string>, s: set<string>)
  {
    && (forall i, j :: 0 <= i < j < |keys| ==> keys[i] != keys[j])
    && (forall k :: k in keys <==> k in s)
  }

  lemma {:induction false} ListedCount(keys: seq<string>, s: set<string>)
    requires Lists(keys, s)
    ensures |keys| == |s|
  {
    if keys == [] {
      assert s == {};
    } else {
      var n := |keys| - 1;
      var rest := keys[..n];
      assert keys == rest + [keys[n]];
      ListedCount(rest, s - {keys[n]});
    }
  }

  ghost predicate Shows(states: seq<PodState>, keys: seq<string>, cache: Cache)
  {
    |states| == |keys| && forall i :: 0 <= i < |keys| ==> keys[i] in cache && states[i] == cache[keys[i]]
  }

  lemma ShownIds(states: seq<PodState>, keys: seq<string>, s: set<string>, cache: Cache)
    requires Shows(states, keys, cache) && Lists(keys, s)
    ensures s <= cache.Keys && IdsOf(states) == Ids(cache, s)
  {
    forall k | k in s ensures k in cache && cache[k].id in IdsOf(states) {
      var i :| 0 <= i < |keys| && keys[i] == k;
      assert states[i] in states;
    }
    forall x | x in states ensures x.id in Ids(cache, s) {
      var i :| 0 <= i < |states| && states[i] == x;
      assert keys[i] in s;
    }
  }

  function MastersIn(states: seq<PodState>): seq<PodState>
  {
    if states == [] then []
    else (if states[0].isMaster then [states[0]] else []) + MastersIn(states[1..])
  }

  // The UID that sorting the slice puts first.
  ghost function HeadUid(states: seq<PodState>): string
    requires states != []
  {
    assert states[0].id in IdsOf(states);
    Oldest(IdsOf(states)).uid
  }

  ghost function KeepMasters(keys: seq<string>, cache: Cache): seq<string>
  {
    if keys == [] then []
    else (if keys[0] in cache && cache[keys[0]].isMaster then [keys[0]] else []) + KeepMasters(keys[1..], cache)
  }

  lemma {:induction false} KeptMasters(keys: seq<string>, cache: Cache, k: string)
    ensures k in KeepMasters(keys, cache) <==> k in keys && k in cache && cache[k].isMaster
  {
    if keys == [] {
    } else {
      KeptMasters(keys[1..], cache, k);
      assert k in keys <==> k == keys[0] || k in keys[1..] by { assert keys == [keys[0]] + keys[1..]; }
    }
  }

  lemma {:induction false} KeptOnce(keys: seq<string>, cache: Cache)
    requires forall i, j :: 0 <= i < j < |keys| ==> keys[i] != keys[j]
    ensures forall i, j :: 0 <= i < j < |KeepMasters(keys, cache)| ==>
              KeepMasters(keys, cache)[i] != KeepMasters(keys, cache)[j]
  {
    if keys == [] {
    } else {
      KeptOnce(keys[1..], cache);
      KeptMasters(keys[1..], cache, keys[0]);
    }
  }

  lemma {:induction false} KeptShown(states: seq<PodState>, keys: seq<string>, cache: Cache)
    requires Shows(states, keys, cache)
    ensures Shows(MastersIn(states), KeepMasters(keys, cache), cache)
    decreases |keys|
  {
    if keys == [] {
    } else {
      KeptShown(states[1..], keys[1..], cache);
    }
  }

  // The masters in the healthy slice are the healthy masters of the cache, each once.
  lemma MastersShown(states: seq<PodState>, keys: seq<string>, cache: Cache)
    requires Shows(states, keys, cache) && Lists(keys, HealthyKeys(cache))
    ensures |MastersIn(states)| == |MasterKeys(cache)|
    ensures IdsOf(MastersIn(states)) == Ids(cache, MasterKeys(cache))
  {
    var masterKeys := KeepMasters(keys, cache);
    KeptShown(states, keys, cache);
    KeptOnce(keys, cache);
    forall k ensures k in masterKeys <==> k in MasterKeys(cache) { KeptMasters(keys, cache, k); }
    ListedCount(masterKeys, MasterKeys(cache));
    ShownIds(MastersIn(states), masterKeys, MasterKeys(cache), cache);
  }

  class Orchestrator {
    const cfg: Config
    const redis: RedisServer?
    var labelled: bool
    var peerStates: Cache
    ghost var issued: seq<Call>

    ghost predicate Valid() { redis == null <==> cfg.standalone }

    ghost function View(): Visible
      reads this, redis
    {
      Visible(redis != null && redis.master, labelled)
    }

    // What running the calls of an action makes of a view.
    ghost function After(a: Action, env: Env, v: Visible): Visible
    {
      RunCalls(Program(a, cfg.noPromote, env.linkDown), env.outcome, v)
    }

    ghost function CallsOf(a: Action, env: Env): seq<Call>
    {
      Issued(Program(a, cfg.noPromote, env.linkDown), env.outcome)
    }

    constructor (cfg: Config, server: RedisServer)
      ensures Valid() && this.cfg == cfg && peerStates == map[] && !labelled && issued == []
      ensures !cfg.standalone ==> redis == server
    {
      this.cfg := cfg;
      redis := if cfg.standalone then null else server;
      labelled, peerStates, issued := false, map[], [];
    }

    method SyncState(env: Env)
      requires Valid()
      modifies this, redis
      ensures !cfg.standalone && !env.infoOk ==>
                View() == old(View()) && peerStates == old(peerStates) && issued == old(issued)
      ensures cfg.standalone || env.infoOk ==>
                var local := LocalState(env, old(View()));
                var action := Decide(cfg, peerStates, local, env.leader);
                && peerStates == Merge(old(peerStates), cfg.id.name, local, env.replies, env.now)
                && View() == After(action, env, old(View()))
                && issued == old(issued) + CallsOf(action, env)
      // Witness safety: nothing is called and nothing visible changes.
      ensures cfg.standalone ==> View() == old(View()) && issued == old(issued)
    {
      var st := GetLocalState(env);
      if st.None? {
        return;
      }
      UpdatePeerStates(st.value, env.replies, env.now);
      Reconcile(st.value, env);
    }

    ghost function LocalState(env: Env, v: Visible): PodState
    {
      if cfg.standalone then PodState(cfg.id, false, true, true, env.now)
      else PodState(cfg.id, v.master, env.pingOk, false, env.now)
    }

    method GetLocalState(env: Env) returns (st: Option<PodState>)
      requires Valid()
      ensures st == if cfg.standalone || env.infoOk then Some(LocalState(env, View())) else None
      ensures st.Some? ==> st.value.id == cfg.id && st.value.lastSeen == env.now && st.value.isWitness == cfg.standalone
      ensures st.Some? && cfg.standalone ==> st.value.isHealthy && !st.value.isMaster
      ensures st.Some? && !cfg.standalone ==> st.value.isHealthy == env.pingOk && st.value.isMaster == redis.master
    {
      if cfg.standalone {
        return Some(PodState(cfg.id, false, true, true, env.now));
      }
      if !env.infoOk {
        return None;
      }
      return Some(PodState(cfg.id, redis.master, env.pingOk, false, env.now));
    }

    method UpdatePeerStates(local: PodState, replies: Cache, now: int)
      modifies this`peerStates
      ensures peerStates == Merge(old(peerStates), cfg.id.name, local, replies, now)
    {
      peerStates := peerStates[cfg.id.name := local];
      StoreReplies(replies);
      SweepStale(now);
    }

    method StoreReplies(replies: Cache)
      modifies this`peerStates
      ensures peerStates == old(peerStates) + replies
    {
      var todo := replies.Keys;
      while todo != {}
        invariant todo <= replies.Keys
        invariant peerStates.Keys == old(peerStates).Keys + (replies.Keys - todo)
        invariant forall k :: k in peerStates ==>
                    peerStates[k] == if k in replies && k !in todo then replies[k] else old(peerStates)[k]
        decreases todo
      {
        var k :| k in todo;
        peerStates := peerStates[k := replies[k]];
        todo := todo - {k};
      }
    }

    method SweepStale(now: int)
      modifies this`peerStates
      ensures peerStates == map k | k in old(peerStates) && (k == cfg.id.name || !Stale(old(peerStates)[k], now)) ::
                              old(peerStates)[k]
      ensures forall k :: k in old(peerStates) && k != cfg.id.name ==>
                (k in peerStates <==> now - old(peerStates)[k].lastSeen <= 60_000_000_000)
    {
      var todo := peerStates.Keys;
      while todo != {}
        invariant todo <= peerStates.Keys <= old(peerStates).Keys
        invariant forall k :: k in peerStates ==> peerStates[k] == old(peerStates)[k]
        invariant forall k :: k in old(peerStates) && k !in todo ==>
                    (k in peerStates <==> k == cfg.id.name || !Stale(old(peerStates)[k], now))
        decreases todo
      {
        var k :| k in todo;
        if k != cfg.id.name && Stale(peerStates[k], now) {
          peerStates := peerStates - {k};
        }
        todo := todo - {k};
      }
    }

    // The loop over the map: any order, so the result is fixed only up to order.
    method HealthyStates() returns (states: seq<PodState>, ghost keys: seq<string>)
      ensures Lists(keys, HealthyKeys(peerStates)) && Shows(states, keys, peerStates)
    {
      states, keys := [], [];
      var todo := peerStates.Keys;
      while todo != {}
        invariant todo <= peerStates.Keys
        invariant Shows(states, keys, peerStates)
        invariant Lists(keys, HealthyKeys(peerStates) - todo)
        decreases todo
      {
        var k :| k in todo;
        if peerStates[k].isHealthy {
          states, keys := states + [peerStates[k]], keys + [k];
        }
        todo := todo - {k};
      }
      assert HealthyKeys(peerStates) - {} == HealthyKeys(peerStates);
    }

    method CollectMasters(states: seq<PodState>) returns (masters: seq<PodState>)
      ensures masters == MastersIn(states)
    {
      masters := [];
      for i := 0 to |states|
        invariant MastersIn(states) == masters + MastersIn(states[i..])
      {
        if states[i].isMaster {
          masters := masters + [states[i]];
        }
      }
    }

    method Reconcile(local: PodState, env: Env)
      requires Valid()
      modifies this`labelled, this`issued, redis
      ensures View() == After(Decide(cfg, peerStates, local, env.leader), env, old(View()))
      ensures issued == old(issued) + CallsOf(Decide(cfg, peerStates, local, env.leader), env)
    {
      var allStates, keys := HealthyStates();
      ListedCount(keys, HealthyKeys(peerStates));
      if |allStates| == 0 {
        return;
      }
      assert HealthyKeys(peerStates) != {};
      var masters := CollectMasters(allStates);
      ShownIds(allStates, keys, HealthyKeys(peerStates), peerStates);
      MastersShown(allStates, keys, peerStates);
      if cfg.mode == Raft {
        HandleRaftMode(local, env);
      } else if |masters| == 0 {
        HandleNoMaster(allStates, local, env);
      } else if |masters| == 1 {
        var currentMaster := masters[|masters| - 1];
        assert currentMaster.id in IdsOf(masters) && IdsOf(masters) == {currentMaster.id};
        HandleSingleMaster(currentMaster, local, env);
      } else {
        assert masters[0].id in IdsOf(masters);
        HandleSplitBrain(allStates, local, env);
      }
    }

    // Sorts a copy of the slice in place and returns the head.
    method Head(states: seq<PodState>) returns (elected: PodState)
      requires states != []
      ensures elected in states && IsOldest(elected.id, IdsOf(states)) && elected.id.uid == HeadUid(states)
      ensures Earliest(elected.id, IdsOf(states))
      ensures forall x :: x in states ==> elected.id.startup <= x.id.startup
    {
      var a := new PodState[|states|](i requires 0 <= i < |states| => states[i]);
      assert a[..] == states;
      SortStates(a);
      SortedHeadIsOldest(states, a[..]);
      elected := a[0];
      OldestIsEarliest(elected.id, IdsOf(states));
    }

    method HandleNoMaster(allStates: seq<PodState>, local: PodState, env: Env)
      requires Valid() && allStates != []
      modifies this`labelled, this`issued, redis
      ensures cfg.standalone ==> View() == old(View()) && issued == old(issued)
      ensures !cfg.standalone ==>
                var action := DecideNoMaster(cfg, HeadUid(allStates), local);
                && View() == After(action, env, old(View()))
                && issued == old(issued) + CallsOf(action, env)
    {
      if cfg.standalone {
        return;
      }
      if cfg.noPromote {
        if local.isMaster {
          DemoteToReplica(env);
        } else {
          CheckAndFixReplication(local, env);
        }
        return;
      }
      var elected := Head(allStates);
      if elected.id.uid == cfg.id.uid {
        PromoteToMaster(env);
      } else if local.isMaster {
        DemoteToReplica(env);
      }
    }

    method HandleSingleMaster(master: PodState, local: PodState, env: Env)
      requires Valid()
      modifies this`labelled, this`issued, redis
      ensures cfg.standalone ==> View() == old(View()) && issued == old(issued)
      ensures !cfg.standalone ==>
                var action := DecideSingleMaster(cfg, master.id.uid, local);
                && View() == After(action, env, old(View()))
                && issued == old(issued) + CallsOf(action, env)
    {
      if cfg.standalone {
        return;
      }
      if master.id.uid == cfg.id.uid {
        if cfg.noPromote {
          DemoteToReplica(env);
        } else {
          EnsureMasterLabel(env);
        }
        return;
      }
      if local.isMaster {
        DemoteToReplica(env);
      } else {
        CheckAndFixReplication(local, env);
      }
    }

    method HandleSplitBrain(allStates: seq<PodState>, local: PodState, env: Env)
      requires Valid() && MastersIn(allStates) != []
      modifies this`labelled, this`issued, redis
      ensures cfg.standalone ==> View() == old(View()) && issued == old(issued)
      ensures !cfg.standalone ==>
                var action := DecideSplitBrain(cfg, HeadUid(MastersIn(allStates)), local);
                && View() == After(action, env, old(View()))
                && issued == old(issued) + CallsOf(action, env)
    {
      if cfg.standalone {
        return;
      }
      var masters := CollectMasters(allStates);
      var keepMaster := Head(masters);
      if local.isMaster && (local.id.uid != keepMaster.id.uid || cfg.noPromote) {
        DemoteToReplica(env);
        return;
      }
      if !local.isMaster {
        CheckAndFixReplication(local, env);
      }
    }

    method HandleRaftMode(local: PodState, env: Env)
      requires Valid()
      modifies this`labelled, this`issued, redis
      ensures cfg.standalone ==> View() == old(View()) && issued == old(issued)
      ensures !cfg.standalone ==>
                && View() == After(DecideRaft(cfg, local, env.leader), env, old(View()))
                && issued == old(issued) + CallsOf(DecideRaft(cfg, local, env.leader), env)
    {
      if cfg.standalone {
        return;
      }
      if cfg.noPromote {
        if local.isMaster {
          DemoteToReplica(env);
        }
        return;
      }
      if env.leader {
        if !local.isMaster {
          PromoteToMaster(env);
        } else {
          EnsureMasterLabel(env);
        }
        return;
      }
      if local.isMaster {
        DemoteToReplica(env);
        return;
      }
      CheckAndFixReplication(local, env);
    }

    method PromoteToMaster(env: Env)
      requires Valid() && !cfg.standalone
      modifies this`labelled, this`issued, redis
      ensures View() == After(Promote, env, old(View()))
      ensures issued == old(issued) + CallsOf(Promote, env)
      ensures cfg.noPromote ==> View() == old(View()) && issued == old(issued)
      ensures !cfg.noPromote ==>
                var promoted := env.outcome(RedisPromote);
                && issued == old(issued) + (if promoted == Done then [RedisPromote, LabelSet] else [RedisPromote])
                && redis.master == (old(redis.master) || promoted != Refused)
                && labelled == (old(labelled) || (promoted == Done && env.outcome(LabelSet) != Refused))
    {
      if cfg.noPromote {
        return;
      }
      TwoCalls(RedisPromote, LabelSet, env.outcome, View());
      var ok := CallRedis(RedisPromote, env);
      if ok {
        EnsureMasterLabel(env);
      }
    }

    method DemoteToReplica(env: Env)
      requires Valid() && !cfg.standalone
      modifies this`labelled, this`issued, redis
      ensures View() == After(Demote, env, old(View()))
      ensures issued == old(issued) + CallsOf(Demote, env)
      ensures issued == old(issued) + [LabelRemove, RedisReplicaOf]
      ensures redis.master == (old(redis.master) && env.outcome(RedisReplicaOf) == Refused)
      ensures labelled == (old(labelled) && env.outcome(LabelRemove) == Refused)
    {
      TwoCalls(LabelRemove, RedisReplicaOf, env.outcome, View());
      CallKubernetes(LabelRemove, env);
      var _ := CallRedis(RedisReplicaOf, env);
    }

    method CheckAndFixReplication(local: PodState, env: Env)
      requires Valid()
      modifies this`issued, redis
      ensures local.isMaster || cfg.standalone ==> View() == old(View()) && issued == old(issued)
      ensures !local.isMaster && !cfg.standalone ==>
                && View() == After(CheckReplication, env, old(View()))
                && issued == old(issued) + CallsOf(CheckReplication, env)
                && issued == old(issued) + (if env.linkDown then [RedisReplicaOf] else [])
                && labelled == old(labelled)
                && redis.master == (old(redis.master) && (!env.linkDown || env.outcome(RedisReplicaOf) == Refused))
    {
      if local.isMaster {
        return;
      }
      if cfg.standalone {
        return;
      }
      if env.linkDown {
        OneCall(RedisReplicaOf, env.outcome, View());
        var _ := CallRedis(RedisReplicaOf, env);
      }
    }

    method EnsureMasterLabel(env: Env)
      modifies this`labelled, this`issued
      ensures View() == After(EnsureLabel, env, old(View()))
      ensures issued == old(issued) + CallsOf(EnsureLabel, env)
      ensures issued == old(issued) + (if cfg.noPromote then [] else [LabelSet])
      ensures labelled == (old(labelled) || (!cfg.noPromote && env.outcome(LabelSet) != Refused))
    {
      if cfg.noPromote {
        return;
      }
      OneCall(LabelSet, env.outcome, View());
      CallKubernetes(LabelSet, env);
    }

    // REPLICAOF NO ONE or REPLICAOF host port; the result is the error the caller sees.
    method CallRedis(call: Call, env: Env) returns (ok: bool)
      requires redis != null && (call == RedisPromote || call == RedisReplicaOf)
      modifies this`issued, redis
      ensures View() == Effect(call, env.outcome(call), old(View())) && issued == old(issued) + [call]
      ensures ok == (env.outcome(call) == Done)
      ensures redis.master == if env.outcome(call) == Refused then old(redis.master) else call == RedisPromote
    {
      issued := issued + [call];
      if env.outcome(call) != Refused {
        redis.master := call == RedisPromote;
      }
      ok := env.outcome(call) == Done;
    }

    // Get-then-update of the pod label.
    method CallKubernetes(call: Call, env: Env)
      requires call == LabelSet || call == LabelRemove
      modifies this`labelled, this`issued
      ensures View() == Effect(call, env.outcome(call), old(View())) && issued == old(issued) + [call]
      ensures labelled == if env.outcome(call) == Refused then old(labelled) else call == LabelSet
    {
      issued := issued + [call];
      if env.outcome(call) != Refused {
        labelled := call == LabelSet;
      }
    }
  }
}
