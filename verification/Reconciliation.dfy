/** What one pod decides from what it sees, and the calls the decision makes.

    The definitions here are over values: the class in Orchestrator.dfy is proved
    to compute them with its loops and in-place sorts, and the transition systems
    in Cluster.dfy, Convergence.dfy and RaftMode.dfy are built from them. */
module Reconciliation {
  import opened PodOrder

  // What a pod reports about itself. IP and namespace are only logged.
  datatype PodState = PodState(
    id: Identity,
    isMaster: bool,
    isHealthy: bool,
    isWitness: bool,
    lastSeen: int)  // nanoseconds

  datatype Mode = Deterministic | Raft

  // `id` groups the pod name, the pod UID and the startup time.
  datatype Config = Config(id: Identity, mode: Mode, standalone: bool, noPromote: bool)
  {
    predicate Promotable() { !standalone && !noPromote }
  }

  type Cache = map<string, PodState>

  function HealthyKeys(c: Cache): set<string> { set k | k in c && c[k].isHealthy }

  function MasterKeys(c: Cache): set<string> { set k | k in c && c[k].isHealthy && c[k].isMaster }

  function Ids(c: Cache, keys: set<string>): set<Identity>
    requires keys <= c.Keys
  {
    set k | k in keys :: c[k].id
  }

  // ---------------------------------------------------------------- decisions

  datatype Action = Idle | Promote | Demote | EnsureLabel | CheckReplication

  // The branch reconcile takes; `leader` is what the Raft library answers.
  ghost function Decide(cfg: Config, cache: Cache, local: PodState, leader: bool): Action
  {
    if HealthyKeys(cache) == {} || cfg.standalone then Idle
    else if cfg.mode == Raft then DecideRaft(cfg, local, leader)
    else if MasterKeys(cache) == {} then DecideNoMaster(cfg, ElectedUid(cache, HealthyKeys(cache)), local)
    else if |MasterKeys(cache)| == 1 then DecideSingleMaster(cfg, ElectedUid(cache, MasterKeys(cache)), local)
    else DecideSplitBrain(cfg, ElectedUid(cache, MasterKeys(cache)), local)
  }

  function DecideRaft(cfg: Config, local: PodState, leader: bool): Action
  {
    if cfg.noPromote then (if local.isMaster then Demote else Idle)
    else if leader then (if local.isMaster then EnsureLabel else Promote)
    else if local.isMaster then Demote
    else CheckReplication
  }

  function DecideNoMaster(cfg: Config, electedUid: string, local: PodState): Action
  {
    if cfg.noPromote then (if local.isMaster then Demote else CheckReplication)
    else if electedUid == cfg.id.uid then Promote
    else if local.isMaster then Demote
    else Idle
  }

  function DecideSingleMaster(cfg: Config, masterUid: string, local: PodState): Action
  {
    if masterUid == cfg.id.uid then (if cfg.noPromote then Demote else EnsureLabel)
    else if local.isMaster then Demote
    else CheckReplication
  }

  function DecideSplitBrain(cfg: Config, keepUid: string, local: PodState): Action
  {
    if local.isMaster && (local.id.uid != keepUid || cfg.noPromote) then Demote
    else if !local.isMaster then CheckReplication
    else Idle
  }

  // The UID at the head of the sorted candidates.
  ghost function ElectedUid(cache: Cache, keys: set<string>): string
    requires keys <= cache.Keys && keys != {}
  {
    var k :| k in keys;
    assert cache[k].id in Ids(cache, keys);
    Oldest(Ids(cache, keys)).uid
  }

  // ------------------------------------------------------------ calls it makes

  datatype Call = RedisPromote | RedisReplicaOf | LabelSet | LabelRemove

  // Done: took effect. Refused: did not. Lost: took effect, but reported an error.
  datatype Outcome = Done | Refused | Lost

  // The Redis role and the pod label: all that other parties can see.
  datatype Visible = Visible(master: bool, labelled: bool)

  // The calls an action makes, in order, as long as each one lets the next run.
  function Program(a: Action, noPromote: bool, linkDown: bool): seq<Call>
  {
    match a
    case Idle => []
    case Promote => if noPromote then [] else [RedisPromote, LabelSet]
    case Demote => [LabelRemove, RedisReplicaOf]
    case EnsureLabel => if noPromote then [] else [LabelSet]
    case CheckReplication => if linkDown then [RedisReplicaOf] else []
  }

  function Effect(call: Call, o: Outcome, v: Visible): Visible
  {
    if o == Refused then v
    else match call
      case RedisPromote => v.(master := true)
      case RedisReplicaOf => v.(master := false)
      case LabelSet => v.(labelled := true)
      case LabelRemove => v.(labelled := false)
  }

  // A failed label removal is only logged; any other reported failure ends the sync.
  predicate Continues(call: Call, o: Outcome) { o == Done || call == LabelRemove }

  function RunCalls(program: seq<Call>, o: Call -> Outcome, v: Visible): Visible
  {
    if program == [] then v
    else
      var v' := Effect(program[0], o(program[0]), v);
      if Continues(program[0], o(program[0])) then RunCalls(program[1..], o, v') else v'
  }

  function Issued(program: seq<Call>, o: Call -> Outcome): seq<Call>
  {
    if program == [] then []
    else if Continues(program[0], o(program[0])) then [program[0]] + Issued(program[1..], o)
    else [program[0]]
  }

  lemma TwoCalls(a: Call, b: Call, o: Call -> Outcome, v: Visible)
    ensures RunCalls([a, b], o, v) ==
            if Continues(a, o(a)) then Effect(b, o(b), Effect(a, o(a), v)) else Effect(a, o(a), v)
    ensures Issued([a, b], o) == if Continues(a, o(a)) then [a, b] else [a]
  {
    assert [a, b][1..] == [b];
    OneCall(b, o, Effect(a, o(a), v));
  }

  lemma OneCall(a: Call, o: Call -> Outcome, v: Visible)
    ensures RunCalls([a], o, v) == Effect(a, o(a), v)
    ensures Issued([a], o) == [a]
  {
    assert [a][1..] == [];
  }

  // ------------------------------------------------- exact decision conditions

  // The pod's own entry is its local state and nobody else carries its UID.
  ghost predicate OwnView(cfg: Config, cache: Cache, local: PodState)
  {
    && local.id == cfg.id
    && cfg.id.name in cache && cache[cfg.id.name] == local
    && forall k :: k in cache && cache[k].id.uid == cfg.id.uid ==> k == cfg.id.name
  }

  lemma ElectedIsOldest(cache: Cache, keys: set<string>, k: string)
    requires keys <= cache.Keys && k in keys
    requires forall x :: x in keys && cache[x].id.uid == cache[k].id.uid ==> x == k
    ensures ElectedUid(cache, keys) == cache[k].id.uid
       <==> forall x :: x in keys && x != k ==> Older(cache[k].id, cache[x].id)
  {
    var s := Ids(cache, keys);
    assert cache[k].id in s;
    var m := Oldest(s);
    var w :| w in keys && cache[w].id == m;
    if m.uid == cache[k].id.uid {
      assert w == k;
      forall x | x in keys && x != k ensures Older(cache[k].id, cache[x].id) {
        assert cache[x].id in s;
      }
    } else {
      OlderTrichotomy(cache[k].id, cache[w].id);
    }
  }

  lemma SingletonKeys(keys: set<string>, k: string)
    requires k in keys
    ensures |keys| == 1 <==> keys == {k}
  {
    if |keys| == 1 {
      assert |keys - {k}| == 0;
      assert keys == (keys - {k}) + {k};
    }
  }

  // In deterministic mode a master gives up its role exactly when it may not hold
  // it, failed its own ping, or sees an older healthy master.
  lemma DemotesIff(cfg: Config, cache: Cache, local: PodState, leader: bool)
    requires cfg.mode == Deterministic && !cfg.standalone
    requires OwnView(cfg, cache, local) && local.isMaster
    requires HealthyKeys(cache) != {}
    ensures Decide(cfg, cache, local, leader) == Demote
       <==> || cfg.noPromote
            || !local.isHealthy
            || exists k :: k in MasterKeys(cache) && Older(cache[k].id, cfg.id)
  {
    var me := cfg.id.name;
    var masters := MasterKeys(cache);
    if !local.isHealthy {
      ElectedIsNotAbsent(cfg, cache, HealthyKeys(cache));
      if masters != {} { ElectedIsNotAbsent(cfg, cache, masters); }
    } else {
      ElectedIsOldest(cache, masters, me);
      SingletonKeys(masters, me);
      forall k | k in masters && k != me
        ensures Older(cache[k].id, cfg.id) <==> !Older(cfg.id, cache[k].id)
      {
        OlderTrichotomy(cache[k].id, cfg.id);
      }
      OlderTrichotomy(cfg.id, cfg.id);
    }
  }

  // In deterministic mode a pod promotes exactly when it may, it sees no healthy
  // master, its own ping succeeded, and it is the oldest healthy pod it sees.
  lemma PromotesIff(cfg: Config, cache: Cache, local: PodState, leader: bool)
    requires cfg.mode == Deterministic && OwnView(cfg, cache, local)
    ensures Decide(cfg, cache, local, leader) == Promote
       <==> && cfg.Promotable()
            && MasterKeys(cache) == {}
            && local.isHealthy
            && forall k :: k in HealthyKeys(cache) && k != cfg.id.name ==> Older(cfg.id, cache[k].id)
  {
    var me := cfg.id.name;
    assert local.isHealthy ==> me in HealthyKeys(cache);
    if HealthyKeys(cache) != {} {
      if local.isHealthy {
        ElectedIsOldest(cache, HealthyKeys(cache), me);
      } else {
        ElectedIsNotAbsent(cfg, cache, HealthyKeys(cache));
      }
    }
  }

  lemma ElectedIsNotAbsent(cfg: Config, cache: Cache, keys: set<string>)
    requires keys <= cache.Keys && keys != {}
    requires forall k :: k in keys ==> cache[k].id.uid != cfg.id.uid
    ensures ElectedUid(cache, keys) != cfg.id.uid
  {
    var k :| k in keys;
    assert cache[k].id in Ids(cache, keys);
    assert Oldest(Ids(cache, keys)) in Ids(cache, keys);
  }

  // A no-promote pod that is master gives it up in both modes.
  lemma NoPromoteDemotes(cfg: Config, cache: Cache, local: PodState, leader: bool)
    requires cfg.noPromote && !cfg.standalone && OwnView(cfg, cache, local) && HealthyKeys(cache) != {}
    ensures Decide(cfg, cache, local, leader) != Promote
    ensures local.isMaster ==> Decide(cfg, cache, local, leader) == Demote
  {
    if cfg.mode == Deterministic && local.isMaster {
      DemotesIff(cfg, cache, local, leader);
    }
  }

  // Only masters are demoted or labelled, only replicas have their link checked.
  lemma DecisionFitsRole(cfg: Config, cache: Cache, local: PodState, leader: bool)
    requires OwnView(cfg, cache, local)
    ensures Decide(cfg, cache, local, leader) in {Demote, EnsureLabel} ==> local.isMaster
    ensures Decide(cfg, cache, local, leader) == CheckReplication ==> !local.isMaster
    ensures Decide(cfg, cache, local, leader) == Promote ==> cfg.Promotable()
  {
    var masters := MasterKeys(cache);
    if masters != {} && !local.isMaster {
      ElectedIsNotAbsent(cfg, cache, masters);
    }
  }

  // ------------------------------------------------------- exact calls of a sync

  // A witness, and a pod that sees nobody healthy, does nothing.
  predicate Acts(cfg: Config, cache: Cache) { !cfg.standalone && HealthyKeys(cache) != {} }

  ghost predicate ShouldPromote(cfg: Config, cache: Cache, local: PodState, leader: bool)
  {
    && Acts(cfg, cache) && !cfg.noPromote && !local.isMaster
    && match cfg.mode
       case Deterministic =>
         && MasterKeys(cache) == {} && local.isHealthy
         && forall k :: k in HealthyKeys(cache) && k != cfg.id.name ==> Older(cfg.id, cache[k].id)
       case Raft => leader
  }

  ghost predicate ShouldDemote(cfg: Config, cache: Cache, local: PodState, leader: bool)
  {
    && Acts(cfg, cache) && local.isMaster
    && (cfg.noPromote ||
        match cfg.mode
        case Deterministic =>
          !local.isHealthy || exists k :: k in MasterKeys(cache) && Older(cache[k].id, cfg.id)
        case Raft => !leader)
  }

  // In a split brain the surviving master is not labelled in the same sync.
  predicate ShouldLabel(cfg: Config, cache: Cache, local: PodState, leader: bool)
  {
    && Acts(cfg, cache) && local.isMaster && !cfg.noPromote
    && match cfg.mode
       case Deterministic => MasterKeys(cache) == {cfg.id.name}
       case Raft => leader
  }

  // A replica's link is repaired while it sees a master, and on a no-promote pod also
  // while it sees none; in Raft mode, on a promotable pod that does not lead.
  predicate ShouldReattach(cfg: Config, cache: Cache, local: PodState, leader: bool, linkDown: bool)
  {
    && Acts(cfg, cache) && !local.isMaster && linkDown
    && match cfg.mode
       case Deterministic => MasterKeys(cache) != {} || cfg.noPromote
       case Raft => !cfg.noPromote && !leader
  }

  lemma LabelsIff(cfg: Config, cache: Cache, local: PodState, leader: bool)
    requires OwnView(cfg, cache, local) && Acts(cfg, cache) && !cfg.noPromote
    ensures Decide(cfg, cache, local, leader) == EnsureLabel <==> ShouldLabel(cfg, cache, local, leader)
  {
    var me, masters := cfg.id.name, MasterKeys(cache);
    if cfg.mode == Deterministic && masters != {} {
      if me in masters {
        ElectedIsOldest(cache, masters, me);
        SingletonKeys(masters, me);
      } else {
        ElectedIsNotAbsent(cfg, cache, masters);
      }
    }
  }

  lemma ChecksIff(cfg: Config, cache: Cache, local: PodState, leader: bool)
    requires OwnView(cfg, cache, local) && Acts(cfg, cache)
    ensures Decide(cfg, cache, local, leader) == CheckReplication <==> ShouldReattach(cfg, cache, local, leader, true)
  {
    var masters := MasterKeys(cache);
    DecisionFitsRole(cfg, cache, local, leader);
    if cfg.mode == Deterministic && masters != {} && !local.isMaster { ElectedIsNotAbsent(cfg, cache, masters); }
  }

  lemma PromotesOrDemotes(cfg: Config, cache: Cache, local: PodState, leader: bool)
    requires OwnView(cfg, cache, local) && Acts(cfg, cache)
    ensures Decide(cfg, cache, local, leader) == Promote <==> ShouldPromote(cfg, cache, local, leader)
    ensures Decide(cfg, cache, local, leader) == Demote <==> ShouldDemote(cfg, cache, local, leader)
  {
    DecisionFitsRole(cfg, cache, local, leader);
    if cfg.mode == Deterministic {
      PromotesIff(cfg, cache, local, leader);
      if local.isMaster {
        assert local.isHealthy ==> cfg.id.name in MasterKeys(cache);
        DemotesIff(cfg, cache, local, leader);
      }
    }
  }

  // In every mode and branch: which calls a decision makes, and nothing else.
  lemma CallsIff(cfg: Config, cache: Cache, local: PodState, leader: bool, linkDown: bool)
    requires OwnView(cfg, cache, local)
    ensures var calls := Program(Decide(cfg, cache, local, leader), cfg.noPromote, linkDown);
            && (calls == [RedisPromote, LabelSet] <==> ShouldPromote(cfg, cache, local, leader))
            && (calls == [LabelRemove, RedisReplicaOf] <==> ShouldDemote(cfg, cache, local, leader))
            && (calls == [LabelSet] <==> ShouldLabel(cfg, cache, local, leader))
            && (calls == [RedisReplicaOf] <==> ShouldReattach(cfg, cache, local, leader, linkDown))
            && (calls == [] || calls == [RedisPromote, LabelSet] || calls == [LabelRemove, RedisReplicaOf]
                || calls == [LabelSet] || calls == [RedisReplicaOf])
  {
    if Acts(cfg, cache) {
      PromotesOrDemotes(cfg, cache, local, leader);
      ChecksIff(cfg, cache, local, leader);
      if !cfg.noPromote { LabelsIff(cfg, cache, local, leader); }
    }
  }
}
