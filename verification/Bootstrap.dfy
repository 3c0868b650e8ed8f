/** Starting Raft nodes: discover a cluster and join it, or bootstrap a new one. */
module Bootstrap {
  import opened Wrappers
  import opened Reconciliation
  import opened Membership

  const MAX_ATTEMPTS: nat := 18

  // A peer's decoded status reply; an empty leader address means it knows no leader.
  datatype ClusterInfo = ClusterInfo(leaderAddr: string, leaderId: string, state: string)

  // Peers that could be asked and answered; any failure on the way is a missing key.
  type Answers = map<string, ClusterInfo>

  datatype NewNode = NewNode(uid: string, address: string, peers: seq<string>,
                             bootstrap: bool, standalone: bool, hasState: bool)

  // One discover-then-join attempt as the network lets it happen.
  datatype Try = Try(inCluster: bool, answers: Answers, leading: bool, configOk: bool, add: Outcome)

  datatype Env = Env(
    first: Try,             // before bootstrapping
    later: nat -> Try,      // the auto-join attempts
    locate: string -> int,  // which cluster an address leads
    bootstrapOk: bool)

  // A panic on the auto-join goroutine takes the process down.
  datatype Fate = Running | Crashed

  // -------------------------------------------------------------------- discovery

  predicate KnowsLeader(answers: Answers, peer: string)
  {
    peer in answers && (answers[peer].leaderAddr != "" || answers[peer].state == "Leader")
  }

  function Discover(peers: seq<string>, answers: Answers): Option<ClusterInfo>
  {
    if peers == [] then None
    else if !KnowsLeader(answers, peers[0]) then Discover(peers[1..], answers)
    else if answers[peers[0]].leaderAddr != "" then Some(answers[peers[0]])
    else Some(answers[peers[0]].(leaderAddr := peers[0]))
  }

  method DiscoverCluster(peers: seq<string>, answers: Answers) returns (r: Option<ClusterInfo>)
    ensures r == Discover(peers, answers)
  {
    for i := 0 to |peers|
      invariant Discover(peers, answers) == Discover(peers[i..], answers)
    {
      var peer := peers[i];
      if peer !in answers {
        continue;
      }
      var info := answers[peer];
      if info.leaderAddr != "" {
        return Some(info);
      }
      if info.state == "Leader" {
        return Some(info.(leaderAddr := peer));
      }
    }
    return None;
  }

  // Discovery fails exactly when no listed peer knows a leader.
  lemma {:induction false} DiscoverFindsIff(peers: seq<string>, answers: Answers)
    ensures Discover(peers, answers).Some? <==> exists i :: 0 <= i < |peers| && KnowsLeader(answers, peers[i])
    ensures Discover(peers, answers).Some?
       <==> exists i :: 0 <= i < |peers| && peers[i] in answers &&
                        (answers[peers[i]].leaderAddr != "" || answers[peers[i]].state == "Leader")
  {
    if peers == [] || KnowsLeader(answers, peers[0]) {
    } else {
      DiscoverFindsIff(peers[1..], answers);
      if i :| 0 <= i < |peers| && KnowsLeader(answers, peers[i]) {
        assert peers[1..][i - 1] == peers[i];
      }
    }
  }

  // Peer i is the first that knows a leader.
  predicate FirstToKnow(peers: seq<string>, answers: Answers, i: int)
  {
    && 0 <= i < |peers| && KnowsLeader(answers, peers[i])
    && forall j :: 0 <= j < i ==> !KnowsLeader(answers, peers[j])
  }

  // The leader to join: the one that peer names, or the peer itself if it names none.
  function NamedLeader(answers: Answers, peer: string): string
    requires peer in answers
  {
    if answers[peer].leaderAddr == "" then peer else answers[peer].leaderAddr
  }

  lemma {:induction false} DiscoverAsksFirst(peers: seq<string>, answers: Answers, i: int)
    requires FirstToKnow(peers, answers, i)
    ensures Discover(peers, answers) ==
            Some(ClusterInfo(NamedLeader(answers, peers[i]), answers[peers[i]].leaderId, answers[peers[i]].state))
  {
    if i == 0 {
    } else {
      assert peers[1..][i - 1] == peers[i];
      assert forall j :: 0 <= j < i - 1 ==> peers[1..][j] == peers[j + 1];
      DiscoverAsksFirst(peers[1..], answers, i - 1);
    }
  }

  ghost predicate NobodyKnows(peers: seq<string>, answers: Answers)
  {
    forall i :: 0 <= i < |peers| ==> !KnowsLeader(answers, peers[i])
  }

  lemma DiscoversNothing(peers: seq<string>, answers: Answers)
    requires NobodyKnows(peers, answers)
    ensures Discover(peers, answers) == None
  {
    DiscoverFindsIff(peers, answers);
  }

  // ------------------------------------------------------------------ joining

  type Clusters = seq<Configuration>

  function JoinRequest(n: NewNode, t: Try): Attempt
  {
    Attempt(if n.standalone then Nonvoter else Voter, Some((n.uid, n.address)), true, t.leading, t.configOk, t.add)
  }

  // The request reaches the leader of cluster k, which handles it.
  function Joined(cs: Clusters, k: int, n: NewNode, t: Try): (bool, Clusters)
  {
    if 0 <= k < |cs| then
      var (response, c) := Handled(cs[k], JoinRequest(n, t));
      (Success(response), cs[k := c])
    else (false, cs)
  }

  // Attempts k, k+1, ..., until the node is in, a join succeeds, or they run out. The
  // log line between discovery and join slices eight bytes off the leader's ID.
  function AutoJoined(cs: Clusters, n: NewNode, env: Env, k: nat): (Fate, Clusters)
    decreases MAX_ATTEMPTS - k
  {
    if k >= MAX_ATTEMPTS || env.later(k).inCluster then (Running, cs)
    else match Discover(n.peers, env.later(k).answers)
      case None => AutoJoined(cs, n, env, k + 1)
      case Some(info) =>
        if |info.leaderId| < LOGGED_ID_BYTES then (Crashed, cs)
        else
          var (ok, cs') := Joined(cs, env.locate(info.leaderAddr), n, env.later(k));
          if ok then (Running, cs') else AutoJoined(cs', n, env, k + 1)
  }

  predicate MayBootstrap(n: NewNode) { !n.hasState && n.bootstrap && n.peers != [] && !n.standalone }

  predicate MayAutoJoin(n: NewNode) { !n.hasState && n.peers != [] && (!n.bootstrap || n.standalone) }

  // One start. A bootstrap adds a cluster of its own.
  function Started(cs: Clusters, n: NewNode, env: Env): (Fate, Clusters)
  {
    if MayBootstrap(n) then
      var (ok, cs') := match Discover(n.peers, env.first.answers)
        case None => (false, cs)
        case Some(info) => Joined(cs, env.locate(info.leaderAddr), n, env.first);
      (Running, if ok || !env.bootstrapOk then cs' else cs' + [[Server(n.uid, n.address, Voter)]])
    else if MayAutoJoin(n) then AutoJoined(cs, n, env, 0)
    else (Running, cs)
  }

  class Network {
    var clusters: Clusters

    constructor () ensures clusters == [] { clusters := []; }

    method JoinCluster(n: NewNode, k: int, t: Try) returns (ok: bool)
      modifies this
      ensures (ok, clusters) == Joined(old(clusters), k, n, t)
    {
      if k < 0 || |clusters| <= k {
        return false;
      }
      var leader := new RaftNode(clusters[k]);
      var response;
      if n.standalone {
        response := leader.HandleAddNonvoter(JoinRequest(n, t));
      } else {
        response := leader.HandleAddVoter(JoinRequest(n, t));
      }
      clusters := clusters[k := leader.servers];
      ok := Success(response);
    }

    method AutoJoinCluster(n: NewNode, env: Env) returns (fate: Fate)
      modifies this
      ensures (fate, clusters) == AutoJoined(old(clusters), n, env, 0)
    {
      var attempt := 0;
      while attempt < MAX_ATTEMPTS
        invariant 0 <= attempt <= MAX_ATTEMPTS
        invariant AutoJoined(old(clusters), n, env, 0) == AutoJoined(clusters, n, env, attempt)
      {
        if env.later(attempt).inCluster {
          return Running;
        }
        var found := DiscoverCluster(n.peers, env.later(attempt).answers);
        if found.Some? {
          if |found.value.leaderId| < LOGGED_ID_BYTES {
            return Crashed;
          }
          var ok := JoinCluster(n, env.locate(found.value.leaderAddr), env.later(attempt));
          if ok {
            return Running;
          }
        }
        attempt := attempt + 1;
      }
      return Running;
    }

    method Start(n: NewNode, env: Env) returns (fate: Fate)
      modifies this
      ensures (fate, clusters) == Started(old(clusters), n, env)
    {
      fate := Running;
      if !n.hasState && n.bootstrap && |n.peers| > 0 && !n.standalone {
        var found := DiscoverCluster(n.peers, env.first.answers);
        var shouldBootstrap := true;
        if found.Some? {
          var ok := JoinCluster(n, env.locate(found.value.leaderAddr), env.first);
          if ok {
            shouldBootstrap := false;
          }
        }
        if shouldBootstrap && env.bootstrapOk {
          clusters := clusters + [[Server(n.uid, n.address, Voter)]];
        }
      }
      if !n.hasState && !n.bootstrap && |n.peers| > 0 {
        fate := AutoJoinCluster(n, env);
      } else if n.standalone && !n.hasState && |n.peers| > 0 {
        fate := AutoJoinCluster(n, env);
      }
    }
  }

  // ----------------------------------------------------------------- retrying

  // Cluster c's leader takes the node in, or has it already.
  ghost predicate Accepts(cs: Clusters, c: int, n: NewNode, t: Try)
  {
    && 0 <= c < |cs| && t.leading && t.configOk && n.uid != "" && n.address != ""
    && (HasId(cs[c], n.uid) || (t.add == Done && |n.uid| >= 8))
  }

  // Nobody is asked, or whoever is asked turns the node away and changes nothing.
  ghost predicate Rejects(cs: Clusters, c: int, n: NewNode, t: Try)
  {
    || c < 0 || |cs| <= c || !t.leading || !t.configOk || n.uid == "" || n.address == ""
    || (t.add == Refused && !HasId(cs[c], n.uid))
  }

  // With the node added under its own suffrage, unless it was there.
  ghost function WithMember(cs: Clusters, c: int, n: NewNode): Clusters
    requires 0 <= c < |cs|
  {
    if HasId(cs[c], n.uid) then cs
    else cs[c := cs[c] + [Server(n.uid, n.address, if n.standalone then Nonvoter else Voter)]]
  }

  lemma JoinOutcome(cs: Clusters, c: int, n: NewNode, t: Try)
    ensures Accepts(cs, c, n, t) ==> Joined(cs, c, n, t) == (true, WithMember(cs, c, n))
    ensures Rejects(cs, c, n, t) ==> Joined(cs, c, n, t) == (false, cs)
  {
    if 0 <= c < |cs| { assert cs[c := cs[c]] == cs; }
  }

  // The attempt comes to nothing: no peer knows a leader, or the one found turns the
  // node away.
  ghost predicate ComesToNothing(cs: Clusters, n: NewNode, env: Env, j: nat)
  {
    var t := env.later(j);
    && !t.inCluster
    && forall i :: FirstToKnow(n.peers, t.answers, i) ==>
         |t.answers[n.peers[i]].leaderId| >= 8 && Rejects(cs, env.locate(NamedLeader(t.answers, n.peers[i])), n, t)
  }

  lemma {:induction false} SomeoneFirst(peers: seq<string>, answers: Answers) returns (i: int)
    requires !NobodyKnows(peers, answers)
    ensures FirstToKnow(peers, answers, i)
  {
    if KnowsLeader(answers, peers[0]) {
      i := 0;
    } else {
      var k :| 0 <= k < |peers| && KnowsLeader(answers, peers[k]);
      assert peers[1..][k - 1] == peers[k];
      i := SomeoneFirst(peers[1..], answers);
      i := i + 1;
      assert forall j :: 1 <= j < i ==> peers[j] == peers[1..][j - 1];
    }
  }

  lemma TriesAgain(cs: Clusters, n: NewNode, env: Env, j: nat)
    requires j < 18 && ComesToNothing(cs, n, env, j)
    ensures AutoJoined(cs, n, env, j) == AutoJoined(cs, n, env, j + 1)
  {
    var t := env.later(j);
    if NobodyKnows(n.peers, t.answers) {
      DiscoversNothing(n.peers, t.answers);
    } else {
      var i := SomeoneFirst(n.peers, t.answers);
      DiscoverAsksFirst(n.peers, t.answers, i);
      JoinOutcome(cs, env.locate(NamedLeader(t.answers, n.peers[i])), n, t);
    }
  }

  lemma {:induction false} ReachesAttempt(cs: Clusters, n: NewNode, env: Env, k: nat)
    requires k <= 18 && forall j :: 0 <= j < k ==> ComesToNothing(cs, n, env, j)
    ensures AutoJoined(cs, n, env, 0) == AutoJoined(cs, n, env, k)
  {
    if k == 0 {
    } else {
      ReachesAttempt(cs, n, env, k - 1);
      TriesAgain(cs, n, env, k - 1);
    }
  }

  // A new node that is not to bootstrap, or a witness, joins at the first of its 18
  // attempts that finds a leader who takes it, after any number that came to nothing.
  lemma JoinsOnAttempt(cs: Clusters, n: NewNode, env: Env, k: nat, i: int)
    requires !n.hasState && (!n.bootstrap || n.standalone)
    requires k < 18 && forall j :: 0 <= j < k ==> ComesToNothing(cs, n, env, j)
    requires !env.later(k).inCluster && FirstToKnow(n.peers, env.later(k).answers, i)
    requires |env.later(k).answers[n.peers[i]].leaderId| >= 8
    requires Accepts(cs, env.locate(NamedLeader(env.later(k).answers, n.peers[i])), n, env.later(k))
    ensures Started(cs, n, env) ==
            (Running, WithMember(cs, env.locate(NamedLeader(env.later(k).answers, n.peers[i])), n))
  {
    ReachesAttempt(cs, n, env, k);
    DiscoverAsksFirst(n.peers, env.later(k).answers, i);
    JoinOutcome(cs, env.locate(NamedLeader(env.later(k).answers, n.peers[i])), n, env.later(k));
  }

  // It crashes at the first attempt that finds a leader whose ID is too short ...
  lemma CrashesOnAttempt(cs: Clusters, n: NewNode, env: Env, k: nat, i: int)
    requires !n.hasState && (!n.bootstrap || n.standalone)
    requires k < 18 && forall j :: 0 <= j < k ==> ComesToNothing(cs, n, env, j)
    requires !env.later(k).inCluster && FirstToKnow(n.peers, env.later(k).answers, i)
    requires |env.later(k).answers[n.peers[i]].leaderId| < 8
    ensures Started(cs, n, env) == (Crashed, cs)
  {
    ReachesAttempt(cs, n, env, k);
    DiscoverAsksFirst(n.peers, env.later(k).answers, i);
  }

  // ... and stops, with nothing changed, when it is in a cluster already or all 18
  // attempts came to nothing.
  lemma GivesUp(cs: Clusters, n: NewNode, env: Env, k: nat)
    requires !n.hasState && (!n.bootstrap || n.standalone)
    requires k <= 18 && forall j :: 0 <= j < k ==> ComesToNothing(cs, n, env, j)
    requires k == 18 || env.later(k).inCluster
    ensures Started(cs, n, env) == (Running, cs)
  {
    ReachesAttempt(cs, n, env, k);
  }

  // A node with state of its own, or without peers, starts without touching any cluster.
  lemma RestartTouchesNothing(cs: Clusters, n: NewNode, env: Env)
    requires n.hasState || n.peers == []
    ensures Started(cs, n, env) == (Running, cs)
  {
  }

  // A new node that is to bootstrap, and is no witness, joins the leader it discovers and
  // creates a cluster of its own, as its only voter, if it finds none or is turned away.
  lemma BootstrapsUnlessJoined(cs: Clusters, n: NewNode, env: Env, i: int)
    requires !n.hasState && n.bootstrap && !n.standalone && n.peers != []
    ensures NobodyKnows(n.peers, env.first.answers) && env.bootstrapOk ==>
              Started(cs, n, env) == (Running, cs + [[Server(n.uid, n.address, Voter)]])
    ensures FirstToKnow(n.peers, env.first.answers, i) ==>
              var c := env.locate(NamedLeader(env.first.answers, n.peers[i]));
              && (Accepts(cs, c, n, env.first) ==> Started(cs, n, env) == (Running, WithMember(cs, c, n)))
              && (Rejects(cs, c, n, env.first) && env.bootstrapOk ==>
                    Started(cs, n, env) == (Running, cs + [[Server(n.uid, n.address, Voter)]]))
  {
    if NobodyKnows(n.peers, env.first.answers) { DiscoversNothing(n.peers, env.first.answers); }
    if FirstToKnow(n.peers, env.first.answers, i) {
      DiscoverAsksFirst(n.peers, env.first.answers, i);
      JoinOutcome(cs, env.locate(NamedLeader(env.first.answers, n.peers[i])), n, env.first);
    }
  }

  // --------------------------------------------------------------- single cluster

  lemma {:induction false} AutoJoinKeepsCount(cs: Clusters, n: NewNode, env: Env, k: nat)
    ensures |AutoJoined(cs, n, env, k).1| == |cs|
    decreases MAX_ATTEMPTS - k
  {
    if k >= MAX_ATTEMPTS || env.later(k).inCluster {
    } else {
      match Discover(n.peers, env.later(k).answers)
      case None => AutoJoinKeepsCount(cs, n, env, k + 1);
      case Some(info) =>
        var r := Joined(cs, env.locate(info.leaderAddr), n, env.later(k));
        if |info.leaderId| >= LOGGED_ID_BYTES && !r.0 { AutoJoinKeepsCount(r.1, n, env, k + 1); }
    }
  }

  // The node may bootstrap, the library lets it, and no discovered leader accepted it.
  predicate Creates(cs: Clusters, n: NewNode, env: Env)
  {
    var found := Discover(n.peers, env.first.answers);
    && MayBootstrap(n) && env.bootstrapOk
    && (found.Some? ==> !Joined(cs, env.locate(found.value.leaderAddr), n, env.first).0)
  }

  lemma StartAddsCluster(cs: Clusters, n: NewNode, env: Env)
    ensures |Started(cs, n, env).1| == |cs| + if Creates(cs, n, env) then 1 else 0
  {
    if MayAutoJoin(n) { AutoJoinKeepsCount(cs, n, env, 0); }
  }

  // Some listed peer knows a leader exactly when a cluster exists, every leader named
  // leads that one cluster, and the leader applies the change.
  ghost predicate ReliableTry(cs: Clusters, n: NewNode, env: Env, t: Try)
  {
    && !t.inCluster && t.leading && t.configOk && t.add == Done
    && (cs != [] <==> exists i :: 0 <= i < |n.peers| && KnowsLeader(t.answers, n.peers[i]))
    && (Discover(n.peers, t.answers).Some? ==> env.locate(Discover(n.peers, t.answers).value.leaderAddr) == 0)
  }

  ghost predicate Reliable(cs: Clusters, n: NewNode, env: Env)
  {
    n.peers != [] ==>
      env.bootstrapOk && ReliableTry(cs, n, env, env.first) && forall k :: ReliableTry(cs, n, env, env.later(k))
  }

  // Not started before; a UID is long enough for the handlers' log lines.
  predicate New(n: NewNode) { !n.hasState && |n.uid| >= LOGGED_ID_BYTES && n.address != "" }

  // The first leader an auto-joining node hears of comes with too short an ID.
  predicate HearsShortId(n: NewNode, env: Env)
  {
    var found := Discover(n.peers, env.later(0).answers);
    MayAutoJoin(n) && found.Some? && |found.value.leaderId| < LOGGED_ID_BYTES
  }

  // A peer answers with its library's leader address and ID, which are set together.
  ghost predicate HonestAnswers(answers: Answers)
  {
    forall p :: p in answers ==>
      if answers[p].leaderAddr == "" then answers[p].leaderId == "" else |answers[p].leaderId| >= LOGGED_ID_BYTES
  }

  // Exactly when an auto-join attempt that discovers a cluster crashes: the first peer
  // that knows a leader is one that has just won and does not name itself yet.
  lemma ShortIdIff(peers: seq<string>, answers: Answers, i: int)
    requires HonestAnswers(answers) && FirstToKnow(peers, answers, i)
    ensures Discover(peers, answers).Some?
    ensures |Discover(peers, answers).value.leaderId| < LOGGED_ID_BYTES <==> answers[peers[i]].leaderAddr == ""
  {
    DiscoverAsksFirst(peers, answers, i);
  }

  // It does happen, whatever the clusters: the joiner's process goes down and nothing changes.
  lemma UnnamedLeaderCrashesJoiner(cs: Clusters, n: NewNode, env: Env, i: int)
    requires MayAutoJoin(n) && !env.later(0).inCluster && HonestAnswers(env.later(0).answers)
    requires FirstToKnow(n.peers, env.later(0).answers, i) && env.later(0).answers[n.peers[i]].leaderAddr == ""
    ensures Started(cs, n, env) == (Crashed, cs)
  {
    ShortIdIff(n.peers, env.later(0).answers, i);
  }

  function AsServer(n: NewNode): Server
  {
    Server(n.uid, n.address, if n.standalone then Nonvoter else Voter)
  }

  // The one cluster there should be: from the first node that may bootstrap, every
  // node with peers that did not crash, in order, witnesses as non-voters.
  function Expected(ns: seq<NewNode>, envs: seq<Env>): Clusters
    requires |ns| == |envs|
  {
    if ns == [] then []
    else
      var last := |ns| - 1;
      Extended(Expected(ns[..last], envs[..last]), ns[last], envs[last])
  }

  function Extended(cs: Clusters, n: NewNode, env: Env): Clusters
  {
    if n.peers == [] || HearsShortId(n, env) then cs
    else if cs != [] then [cs[0] + [AsServer(n)]]
    else if MayBootstrap(n) then [[AsServer(n)]]
    else []
  }

  function StartedAll(ns: seq<NewNode>, envs: seq<Env>): Clusters
    requires |ns| == |envs|
  {
    if ns == [] then []
    else Started(StartedAll(ns[..|ns| - 1], envs[..|ns| - 1]), ns[|ns| - 1], envs[|ns| - 1]).1
  }

  ghost predicate CreatesAt(ns: seq<NewNode>, envs: seq<Env>, i: int)
    requires |ns| == |envs|
  {
    0 <= i < |ns| && Creates(StartedAll(ns[..i], envs[..i]), ns[i], envs[i])
  }

  ghost function Creators(ns: seq<NewNode>, envs: seq<Env>): set<int>
    requires |ns| == |envs|
  {
    set i: int | 0 <= i < |ns| && CreatesAt(ns, envs, i)
  }

  // With no assumption on the network: over any sequence of starts there are as many
  // clusters as starts that bootstrapped; joining, retrying and crashing add none.
  lemma {:induction false} ClustersAreBootstraps(ns: seq<NewNode>, envs: seq<Env>)
    requires |ns| == |envs|
    ensures |StartedAll(ns, envs)| == |Creators(ns, envs)|
  {
    if ns == [] {
      assert Creators(ns, envs) == {};
    } else {
      var n := |ns| - 1;
      var before := Creators(ns[..n], envs[..n]);
      ClustersAreBootstraps(ns[..n], envs[..n]);
      StartAddsCluster(StartedAll(ns[..n], envs[..n]), ns[n], envs[n]);
      CreatorsOfPrefix(ns, envs);
      assert n !in before;
    }
  }

  lemma CreatorsOfPrefix(ns: seq<NewNode>, envs: seq<Env>)
    requires |ns| == |envs| > 0
    ensures var n := |ns| - 1;
            Creators(ns, envs) == Creators(ns[..n], envs[..n]) + if CreatesAt(ns, envs, n) then {n} else {}
  {
    var n := |ns| - 1;
    forall i | 0 <= i < n ensures CreatesAt(ns, envs, i) <==> CreatesAt(ns[..n], envs[..n], i) {
      assert ns[..n][..i] == ns[..i] && envs[..n][..i] == envs[..i];
    }
  }

  ghost predicate DistinctUids(ns: seq<NewNode>)
  {
    forall i, j :: 0 <= i < j < |ns| ==> ns[i].uid != ns[j].uid
  }

  lemma {:induction false} ExpectedMembers(ns: seq<NewNode>, envs: seq<Env>)
    requires |ns| == |envs|
    ensures |Expected(ns, envs)| <= 1
    ensures Expected(ns, envs) != [] ==>
              forall s :: s in Expected(ns, envs)[0] ==> exists i :: 0 <= i < |ns| && s == AsServer(ns[i])
  {
    if ns == [] {
    } else {
      var n := |ns| - 1;
      ExpectedMembers(ns[..n], envs[..n]);
      if Expected(ns, envs) != [] {
        forall s | s in Expected(ns, envs)[0] ensures exists i :: 0 <= i < |ns| && s == AsServer(ns[i]) {
          if s != AsServer(ns[n]) {
            var i :| 0 <= i < n && s == AsServer(ns[..n][i]);
            assert ns[..n][i] == ns[i];
          }
        }
      }
    }
  }

  lemma ReliableStart(cs: Clusters, n: NewNode, env: Env)
    requires |cs| <= 1 && New(n) && Reliable(cs, n, env)
    requires cs != [] ==> !HasId(cs[0], n.uid)
    ensures Started(cs, n, env).1 == Extended(cs, n, env)
    ensures Started(cs, n, env).0 == Crashed <==> HearsShortId(n, env)
  {
    if n.peers != [] {
      DiscoverFindsIff(n.peers, env.first.answers);
      if MayAutoJoin(n) {
        assert ReliableTry(cs, n, env, env.later(0));
        DiscoverFindsIff(n.peers, env.later(0).answers);
        if cs == [] { NothingToJoin(n, env, 0); }
      }
    }
  }

  lemma {:induction false} NothingToJoin(n: NewNode, env: Env, k: nat)
    requires forall j: nat :: ReliableTry([], n, env, env.later(j))
    ensures AutoJoined([], n, env, k) == (Running, [])
    decreases MAX_ATTEMPTS - k
  {
    if k >= MAX_ATTEMPTS {
    } else {
      assert ReliableTry([], n, env, env.later(k));
      DiscoverFindsIff(n.peers, env.later(k).answers);
      NothingToJoin(n, env, k + 1);
    }
  }

  // Each node is new and the network is reliable at its start.
  ghost predicate ReliableStarts(ns: seq<NewNode>, envs: seq<Env>)
    requires |ns| == |envs|
  {
    forall i :: 0 <= i < |ns| ==> New(ns[i]) && Reliable(StartedAll(ns[..i], envs[..i]), ns[i], envs[i])
  }

  lemma ReliablePrefix(ns: seq<NewNode>, envs: seq<Env>, n: nat)
    requires |ns| == |envs| && ReliableStarts(ns, envs) && n <= |ns|
    ensures ReliableStarts(ns[..n], envs[..n])
  {
    forall i | 0 <= i < n
      ensures New(ns[..n][i]) && Reliable(StartedAll(ns[..n][..i], envs[..n][..i]), ns[..n][i], envs[..n][i])
    {
      assert ns[..n][..i] == ns[..i] && envs[..n][..i] == envs[..i];
    }
  }

  lemma NewUidIsAbsent(ns: seq<NewNode>, envs: seq<Env>)
    requires |ns| == |envs| > 0 && DistinctUids(ns) && Expected(ns[..|ns| - 1], envs[..|ns| - 1]) != []
    ensures !HasId(Expected(ns[..|ns| - 1], envs[..|ns| - 1])[0], ns[|ns| - 1].uid)
  {
    var before := ns[..|ns| - 1];
    var c := Expected(before, envs[..|ns| - 1])[0];
    ExpectedMembers(before, envs[..|ns| - 1]);
    forall j | 0 <= j < |c| ensures c[j].id != ns[|ns| - 1].uid {
      assert c[j] in c;
      var i :| 0 <= i < |before| && c[j] == AsServer(before[i]);
      assert before[i] == ns[i];
    }
  }

  // Serialised starts with reliable discovery and joining, in any number and any
  // mix: at most one bootstrap, and one configuration holding every node that joined.
  lemma {:induction false} SingleCluster(ns: seq<NewNode>, envs: seq<Env>)
    requires |ns| == |envs| && DistinctUids(ns) && ReliableStarts(ns, envs)
    ensures StartedAll(ns, envs) == Expected(ns, envs) && |StartedAll(ns, envs)| <= 1
  {
    ExpectedMembers(ns, envs);
    if ns == [] {
    } else {
      var n := |ns| - 1;
      ReliablePrefix(ns, envs, n);
      SingleCluster(ns[..n], envs[..n]);
      if Expected(ns[..n], envs[..n]) != [] { NewUidIsAbsent(ns, envs); }
      assert Reliable(StartedAll(ns[..n], envs[..n]), ns[n], envs[n]);
      ReliableStart(Expected(ns[..n], envs[..n]), ns[n], envs[n]);
    }
  }

  ghost predicate BootstrapperUpTo(ns: seq<NewNode>, i: int)
  {
    exists j :: 0 <= j <= i && j < |ns| && MayBootstrap(ns[j])
  }

  lemma BootstrapperInPrefix(ns: seq<NewNode>, n: nat, k: int)
    requires k < n <= |ns|
    ensures BootstrapperUpTo(ns[..n], k) <==> BootstrapperUpTo(ns, k)
  {
    var before := ns[..n];
    if j :| 0 <= j <= k && j < |before| && MayBootstrap(before[j]) { assert MayBootstrap(ns[j]); }
    if j :| 0 <= j <= k && j < |ns| && MayBootstrap(ns[j]) { assert MayBootstrap(before[j]); }
  }

  lemma {:induction false} ExpectedIff(ns: seq<NewNode>, envs: seq<Env>, i: int)
    requires |ns| == |envs| && DistinctUids(ns) && 0 <= i < |ns|
    ensures Expected(ns, envs) != [] <==> BootstrapperUpTo(ns, |ns| - 1)
    ensures Expected(ns, envs) != [] ==>
              (AsServer(ns[i]) in Expected(ns, envs)[0] <==>
               ns[i].peers != [] && !HearsShortId(ns[i], envs[i]) && BootstrapperUpTo(ns, i))
  {
    var n := |ns| - 1;
    var before, cs := ns[..n], Expected(ns[..n], envs[..n]);
    BootstrapperInPrefix(ns, n, n - 1);
    if i < n { BootstrapperInPrefix(ns, n, i); }
    assert BootstrapperUpTo(ns, n) <==> BootstrapperUpTo(ns, n - 1) || MayBootstrap(ns[n]);
    if n > 0 {
      ExpectedIff(before, envs[..n], if i < n then i else 0);
      assert i < n ==> before[i] == ns[i] && envs[..n][i] == envs[i] && ns[i].uid != ns[n].uid;
    }
    if cs != [] && i == n {
      NewUidIsAbsent(ns, envs);
      assert AsServer(ns[n]) !in cs[0];
    }
  }

  predicate ToBootstrap(n: NewNode) { n.bootstrap && !n.standalone && n.peers != [] }

  // So a node is in the one configuration, as a voter or for a witness as a non-voter,
  // exactly when it has peers, it or an earlier node could bootstrap, and it did not
  // crash on the ID of the leader it heard of.
  lemma JoinersLandInOneCluster(ns: seq<NewNode>, envs: seq<Env>, i: int)
    requires |ns| == |envs| && DistinctUids(ns) && ReliableStarts(ns, envs) && 0 <= i < |ns|
    ensures StartedAll(ns, envs) != [] <==> exists j :: 0 <= j < |ns| && ToBootstrap(ns[j])
    ensures StartedAll(ns, envs) != [] ==>
              var server := Server(ns[i].uid, ns[i].address, if ns[i].standalone then Nonvoter else Voter);
              (server in StartedAll(ns, envs)[0] <==>
               ns[i].peers != [] && !HearsShortId(ns[i], envs[i]) && exists j :: 0 <= j <= i && ToBootstrap(ns[j]))
  {
    SingleCluster(ns, envs);
    ExpectedIff(ns, envs, i);
    assert forall j :: 0 <= j < |ns| ==> New(ns[j]) && (MayBootstrap(ns[j]) <==> ToBootstrap(ns[j]));
  }

  // Discovery that misses an existing cluster splits it: for any two bootstrapping nodes.
  lemma MissedDiscoverySplits(a: NewNode, b: NewNode, ea: Env, eb: Env)
    requires MayBootstrap(a) && MayBootstrap(b) && ea.bootstrapOk && eb.bootstrapOk
    requires Discover(a.peers, ea.first.answers).None? && Discover(b.peers, eb.first.answers).None?
    ensures |StartedAll([a, b], [ea, eb])| == 2
  {
    assert [a, b][..1] == [a] && [ea, eb][..1] == [ea] && [a][..0] == [] && [ea][..0] == [];
    StartAddsCluster([], a, ea);
    assert StartedAll([a], [ea]) == Started(StartedAll([], []), a, ea).1;
    StartAddsCluster(StartedAll([a], [ea]), b, eb);
  }
}
