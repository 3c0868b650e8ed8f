/** Convergence without atomic syncs: observations and single calls of all pods
    interleave freely, and each observation sees the cluster as it is at that moment. */
module CallConvergence {
  import opened PodOrder
  import opened Reconciliation
  import opened PeerCache
  import opened Cluster

  // `up` are the healthy pods, those that answer their own ping; a witness always does.
  ghost predicate HealthFits(s: State, up: set<string>)
  {
    up <= s.Keys && forall p :: p in s && s[p].cfg.standalone ==> p in up
  }

  // The observer hears from every other pod, with its current role and health.
  ghost predicate SeesNow(s: State, p: string, o: Observation, up: set<string>)
  {
    && (o.ping <==> p in up)
    && forall q :: q in s && q != p ==> HearsNow(s, q, o, up)
  }

  ghost predicate HearsNow(s: State, q: string, o: Observation, up: set<string>)
    requires q in s
  {
    && q in o.replies && !Stale(o.replies[q], o.now)
    && o.replies[q].isHealthy == (q in up) && o.replies[q].isMaster == s[q].view.master
  }

  // A complete view at an observation; a Redis command takes effect, a label call may fail.
  ghost predicate SmoothAt(r: seq<State>, steps: seq<Step>, i: int, up: set<string>)
    requires |r| > |steps| && 0 <= i < |steps|
  {
    match steps[i]
    case Observe(p, o) => SeesNow(r[i], p, o, up)
    case Perform(p, _) => Effective(r, steps, i, p)
  }

  // A deterministic-mode run that is smooth throughout.
  ghost predicate SmoothRun(r: seq<State>, steps: seq<Step>, up: set<string>)
  {
    && Run(r, steps) && DeterministicMode(r[0]) && HealthFits(r[0], up)
    && forall i :: 0 <= i < |steps| ==> SmoothAt(r, steps, i, up)
  }

  ghost function MastersOf(s: State): set<string> { set p | p in s && s[p].view.master }

  ghost function HealthyMasters(s: State, up: set<string>): set<string> { MastersOf(s) * up }

  ghost predicate OldestIn(s: State, names: set<string>, t: string)
  {
    t in s && t in names && forall q :: q in s && q in names && q != t ==> Older(s[t].cfg.id, s[q].cfg.id)
  }

  lemma OldestInUnique(s: State, names: set<string>, t: string, t': string)
    requires OldestIn(s, names, t) && OldestIn(s, names, t')
    ensures t == t'
  {
    OlderTrichotomy(s[t].cfg.id, s[t'].cfg.id);
  }

  // ------------------------------------------------------- what one observation does

  // What the pod sees, in terms of the cluster s: its own entry, the healthy pods, the
  // healthy masters, and everyone's identity.
  ghost predicate Sees(n: Node, o: Observation, s: State, masters: set<string>, up: set<string>)
  {
    var c := Refreshed(n, o);
    && n.cfg.mode == Deterministic && Consistent(n) && Filed(s, n)
    && OwnView(n.cfg, c, Local(n, o)) && Local(n, o).isHealthy == (n.cfg.id.name in up)
    && HealthyKeys(c) == up && MasterKeys(c) == masters && up <= s.Keys
    && forall q :: q in s ==> q in c && c[q].id == s[q].cfg.id && s[q].cfg.id.name == q
  }

  ghost predicate Filed(s: State, n: Node) { n.cfg.id.name in s && s[n.cfg.id.name].cfg == n.cfg }

  // Whoever is cached is a pod of the cluster, under its own identity.
  lemma CachedIds(r: seq<State>, steps: seq<Step>, i: int, p: string, o: Observation)
    requires Run(r, steps) && 0 <= i < |steps| && steps[i] == Observe(p, o) && p in r[i]
    ensures var c := Refreshed(r[i][p], o);
            forall q :: q in c ==> q in r[0] && c[q].id == r[0][q].cfg.id
  {
    RunKeeps(r, steps, i);
    assert Kept(r, i) && Takes(r, steps, i);
    var c := Refreshed(r[i][p], o);
    forall q | q in c ensures q in r[0] && c[q].id == r[0][q].cfg.id {
      if q == p {
        assert c[q] == Local(r[i][p], o);
      } else {
        var j := Witness(r, i, q, c[q]);
        assert Kept(r, j);
      }
    }
  }

  // A complete view holds everyone's current role and health.
  lemma SeesRoles(s: State, p: string, o: Observation, up: set<string>)
    requires p in s && p !in o.replies && SeesNow(s, p, o, up) && Consistent(s[p])
    requires s[p].cfg.id.name == p && (s[p].cfg.standalone ==> p in up)
    ensures var c := Refreshed(s[p], o);
            forall q :: q in s ==> q in c && c[q].isHealthy == (q in up) && c[q].isMaster == s[q].view.master
  {
    var c := Refreshed(s[p], o);
    forall q | q in s ensures q in c && c[q].isHealthy == (q in up) && c[q].isMaster == s[q].view.master {
      if q != p {
        assert HearsNow(s, q, o, up);
        assert c[q] == o.replies[q];
      }
    }
  }

  // One observation sees exactly the cluster, with current roles.
  lemma SeesTheCluster(r: seq<State>, steps: seq<Step>, i: int, p: string, o: Observation, up: set<string>)
    requires SmoothRun(r, steps, up) && 0 <= i < |steps| && steps[i] == Observe(p, o)
    ensures p in r[i] && r[i][p].cfg.id.name == p && r[i + 1] == r[i][p := Observed(r[i][p], o)]
    ensures Sees(r[i][p], o, r[0], HealthyMasters(r[i], up), up)
  {
    RunOwnView(r, steps, i, p, o);
    assert SmoothAt(r, steps, i, up);
    CachedIds(r, steps, i, p, o);
    SameConfig(r, steps, i, p);
    SamePods(r, steps, i);
    SeesRoles(r[i], p, o, up);
  }

  lemma ObservedRises(n: Node, o: Observation, s: State, masters: set<string>, up: set<string>)
    requires Sees(n, o, s, masters, up)
    ensures RedisPromote in Observed(n, o).todo
       <==> n.cfg.Promotable() && masters == {} && OldestIn(s, up, n.cfg.id.name)
    ensures RedisPromote in Observed(n, o).todo ==> Observed(n, o).todo == [RedisPromote, LabelSet]
  {
    PromotesIff(n.cfg, Refreshed(n, o), Local(n, o), o.leader);
  }

  lemma ObservedFalls(n: Node, o: Observation, s: State, masters: set<string>, up: set<string>)
    requires Sees(n, o, s, masters, up) && up != {} && n.view.master
    ensures Observed(n, o).todo == [LabelRemove, RedisReplicaOf]
       <==> n.cfg.noPromote || n.cfg.id.name !in up || !OldestIn(s, masters, n.cfg.id.name)
    ensures RedisReplicaOf in Observed(n, o).todo ==> Observed(n, o).todo == [LabelRemove, RedisReplicaOf]
  {
    var c, local := Refreshed(n, o), Local(n, o);
    DemotesIff(n.cfg, c, local, o.leader);
    DecisionFitsRole(n.cfg, c, local, o.leader);
    if n.cfg.id.name in up { OlderMasterSeen(n, o, s, masters, up); }
  }

  lemma OlderMasterSeen(n: Node, o: Observation, s: State, masters: set<string>, up: set<string>)
    requires Sees(n, o, s, masters, up) && n.view.master && n.cfg.id.name in up
    ensures (exists k :: k in masters && Older(Refreshed(n, o)[k].id, n.cfg.id))
       <==> !OldestIn(s, masters, n.cfg.id.name)
  {
    var p, c := n.cfg.id.name, Refreshed(n, o);
    assert p in masters && masters <= up;
    forall q | q in masters ensures Older(c[q].id, n.cfg.id) <==> q != p && !Older(n.cfg.id, s[q].cfg.id) {
      OlderTrichotomy(c[q].id, n.cfg.id);
    }
    if !OldestIn(s, masters, p) {
      var q :| q in s && q in masters && q != p && !Older(n.cfg.id, s[q].cfg.id);
      assert Older(c[q].id, n.cfg.id);
    }
  }

  // --------------------------------------------------------------- the invariant

  ghost predicate Quiet(s: State) { forall p :: p in s ==> s[p].todo == [] }

  // The oldest healthy master at b, or the oldest healthy pod if there is none, and it may lead.
  ghost predicate IsTarget(r: seq<State>, b: int, up: set<string>, t: string)
    requires 0 <= b < |r|
  {
    var masters := HealthyMasters(r[b], up);
    OldestIn(r[0], if masters == {} then up else masters, t) && r[0][t].cfg.Promotable()
  }

  // From b on: nobody but the target is on the way up, the target is not on the way
  // down, and nobody but the target is master without having been one at b.
  ghost predicate OnCourse(r: seq<State>, b: int, i: int, up: set<string>, t: string)
    requires 0 <= b <= i < |r|
  {
    && t in r[i] && RedisReplicaOf !in r[i][t].todo
    && (HealthyMasters(r[b], up) != {} ==> r[i][t].view.master)
    && forall q :: q in r[i] && q != t ==> PodOnCourse(r[b], q, r[i][q])
  }

  ghost predicate PodOnCourse(s: State, q: string, n: Node)
  {
    RedisPromote !in n.todo && (n.view.master ==> q in MastersOf(s))
  }

  // Having observed, a pod other than the target is a replica or queued to become one.
  ghost predicate SteppingDown(n: Node)
  {
    !n.view.master || n.todo == [LabelRemove, RedisReplicaOf] || n.todo == [RedisReplicaOf]
  }

  // Having observed, the target is master or queued to become one.
  ghost predicate SteppingUp(n: Node)
  {
    n.view.master || n.todo == [RedisPromote, LabelSet]
  }

  // On course, the target is the oldest of the healthy masters there are.
  lemma MastersOnCourse(r: seq<State>, b: int, i: int, up: set<string>, t: string)
    requires 0 <= b <= i < |r| && IsTarget(r, b, up, t) && OnCourse(r, b, i, up, t)
    ensures t in r[0] && t in HealthyMasters(r[b], up) + up
    ensures r[i][t].view.master ==> t in up && OldestIn(r[0], HealthyMasters(r[i], up), t)
    ensures !r[i][t].view.master ==> HealthyMasters(r[i], up) == {} && OldestIn(r[0], up, t)
  {
    forall q | q in HealthyMasters(r[i], up) && q != t ensures q in HealthyMasters(r[b], up) {
      assert PodOnCourse(r[b], q, r[i][q]);
    }
  }

  lemma TargetObserves(r: seq<State>, steps: seq<Step>, b: int, i: int, up: set<string>, t: string, o: Observation)
    requires SmoothRun(r, steps, up) && 0 <= b <= i < |steps| && steps[i] == Observe(t, o)
    requires IsTarget(r, b, up, t) && OnCourse(r, b, i, up, t)
    ensures RedisReplicaOf !in Observed(r[i][t], o).todo && SteppingUp(Observed(r[i][t], o))
  {
    SeesTheCluster(r, steps, i, t, o, up);
    MastersOnCourse(r, b, i, up, t);
    var n, masters := r[i][t], HealthyMasters(r[i], up);
    if n.view.master {
      ObservedFalls(n, o, r[0], masters, up);
    } else {
      ObservedRises(n, o, r[0], masters, up);
    }
  }

  lemma OtherObserves(r: seq<State>, steps: seq<Step>, b: int, i: int, up: set<string>, t: string, p: string,
                      o: Observation)
    requires SmoothRun(r, steps, up) && 0 <= b <= i < |steps| && steps[i] == Observe(p, o) && p != t && p in r[i]
    requires IsTarget(r, b, up, t) && OnCourse(r, b, i, up, t)
    ensures RedisPromote !in Observed(r[i][p], o).todo && SteppingDown(Observed(r[i][p], o))
  {
    SeesTheCluster(r, steps, i, p, o, up);
    MastersOnCourse(r, b, i, up, t);
    var n, masters := r[i][p], HealthyMasters(r[i], up);
    assert PodOnCourse(r[b], p, n);
    ObservedRises(n, o, r[0], masters, up);
    if OldestIn(r[0], up, p) && OldestIn(r[0], up, t) { OldestInUnique(r[0], up, p, t); }
    if n.view.master {
      ObservedFalls(n, o, r[0], masters, up);
      if OldestIn(r[0], masters, p) && OldestIn(r[0], masters, t) { OldestInUnique(r[0], masters, p, t); }
    }
  }

  // A call keeps a pod off the way it was not on.
  lemma PerformedCourse(n: Node, o: Outcome)
    requires n.todo != [] && Consistent(n) && TakesEffect(n.todo[0], o)
    ensures RedisPromote !in n.todo ==>
              RedisPromote !in Performed(n, o).todo && (Performed(n, o).view.master ==> n.view.master)
    ensures RedisReplicaOf !in n.todo ==>
              RedisReplicaOf !in Performed(n, o).todo && (n.view.master ==> Performed(n, o).view.master)
  {
  }

  lemma OthersStay(r: seq<State>, steps: seq<Step>, b: int, i: int, up: set<string>, t: string, q: string)
    requires SmoothRun(r, steps, up) && 0 <= b <= i < |steps| && q != t && q in r[i]
    requires IsTarget(r, b, up, t) && OnCourse(r, b, i, up, t)
    ensures q in r[i + 1] && PodOnCourse(r[b], q, r[i + 1][q])
    ensures r[i + 1][q].view.master ==> r[i][q].view.master
  {
    assert Takes(r, steps, i) && SmoothAt(r, steps, i, up) && PodOnCourse(r[b], q, r[i][q]);
    if q == steps[i].pod {
      match steps[i]
      case Observe(_, o) =>
        OtherObserves(r, steps, b, i, up, t, q, o);
      case Perform(_, o) =>
        RunConsistent(r, steps, i, q);
        PerformedCourse(r[i][q], o);
    }
  }

  lemma TargetStays(r: seq<State>, steps: seq<Step>, b: int, i: int, up: set<string>, t: string)
    requires SmoothRun(r, steps, up) && 0 <= b <= i < |steps|
    requires IsTarget(r, b, up, t) && OnCourse(r, b, i, up, t)
    ensures t in r[i + 1] && RedisReplicaOf !in r[i + 1][t].todo
    ensures r[i][t].view.master ==> r[i + 1][t].view.master
  {
    assert Takes(r, steps, i) && SmoothAt(r, steps, i, up);
    if t == steps[i].pod {
      match steps[i]
      case Observe(_, o) =>
        TargetObserves(r, steps, b, i, up, t, o);
      case Perform(_, o) =>
        RunConsistent(r, steps, i, t);
        PerformedCourse(r[i][t], o);
    }
  }

  lemma StaysOnCourse(r: seq<State>, steps: seq<Step>, b: int, i: int, up: set<string>, t: string)
    requires SmoothRun(r, steps, up) && 0 <= b <= i < |steps|
    requires IsTarget(r, b, up, t) && OnCourse(r, b, i, up, t)
    ensures OnCourse(r, b, i + 1, up, t)
  {
    SamePods(r, steps, i);
    SamePods(r, steps, i + 1);
    TargetStays(r, steps, b, i, up, t);
    var after := r[i + 1];
    forall q | q in after && q != t ensures PodOnCourse(r[b], q, after[q]) {
      OthersStay(r, steps, b, i, up, t, q);
    }
  }

  lemma {:induction false} RunOnCourse(r: seq<State>, steps: seq<Step>, b: int, i: int, up: set<string>, t: string)
    requires SmoothRun(r, steps, up) && 0 <= b <= i < |r| && Quiet(r[b]) && IsTarget(r, b, up, t)
    ensures OnCourse(r, b, i, up, t)
  {
    if i == b {
      SamePods(r, steps, b);
      forall q | q in r[b] ensures PodOnCourse(r[b], q, r[b][q]) {}
    } else {
      RunOnCourse(r, steps, b, i - 1, up, t);
      StaysOnCourse(r, steps, b, i - 1, up, t);
    }
  }

  // ------------------------------------------------------------- after observing

  // From a pod's first observation on, it is stepping down, or up if it is the target.
  ghost predicate Settling(s: State, t: string, p: string)
  {
    p in s && if p == t then SteppingUp(s[p]) else SteppingDown(s[p])
  }

  ghost predicate Observes(steps: seq<Step>, i: int, p: string)
    requires 0 <= i < |steps|
  {
    steps[i].Observe? && steps[i].pod == p
  }

  lemma SettlingStep(r: seq<State>, steps: seq<Step>, b: int, i: int, up: set<string>, t: string, p: string)
    requires SmoothRun(r, steps, up) && 0 <= b <= i < |steps| && IsTarget(r, b, up, t) && OnCourse(r, b, i, up, t)
    requires p in r[i] && (Settling(r[i], t, p) || Observes(steps, i, p))
    ensures Settling(r[i + 1], t, p)
  {
    assert Takes(r, steps, i) && SmoothAt(r, steps, i, up);
    assert p != t ==> PodOnCourse(r[b], p, r[i][p]);
    if p == steps[i].pod {
      match steps[i]
      case Observe(_, o) =>
        if p == t { TargetObserves(r, steps, b, i, up, t, o); } else { OtherObserves(r, steps, b, i, up, t, p, o); }
      case Perform(_, o) =>
        RunConsistent(r, steps, i, p);
        PerformedCourse(r[i][p], o);
    }
  }

  lemma {:induction false} SettlesOnceObserved(r: seq<State>, steps: seq<Step>, b: int, a: int, j: int,
                                               up: set<string>, t: string, p: string)
    requires SmoothRun(r, steps, up) && 0 <= b <= a < j < |r| && Quiet(r[b]) && IsTarget(r, b, up, t)
    requires Observes(steps, a, p)
    ensures Settling(r[j], t, p)
  {
    assert Takes(r, steps, a);
    SamePods(r, steps, a);
    SamePods(r, steps, j - 1);
    RunOnCourse(r, steps, b, j - 1, up, t);
    if a + 1 == j {
    } else {
      SettlesOnceObserved(r, steps, b, a, j - 1, up, t, p);
    }
    SettlingStep(r, steps, b, j - 1, up, t, p);
  }

  // Every pod has observed between b and j.
  ghost predicate AllObserved(s: State, steps: seq<Step>, b: int, j: int)
    requires 0 <= b <= j <= |steps|
  {
    forall p :: p in s ==> HasObserved(steps, b, j, p)
  }

  ghost predicate HasObserved(steps: seq<Step>, b: int, j: int, p: string)
    requires 0 <= b <= j <= |steps|
  {
    exists a :: b <= a < j && Observes(steps, a, p)
  }

  // A stretch of a run that starts and ends with nothing pending, every pod observing.
  ghost predicate CallRound(r: seq<State>, steps: seq<Step>, b: int, j: int)
    requires |r| == |steps| + 1
  {
    0 <= b <= j < |r| && Quiet(r[b]) && Quiet(r[j]) && AllObserved(r[0], steps, b, j)
  }

  // At call granularity: in every interleaving with complete views and effective Redis
  // commands, once every pod has observed and no call is pending, exactly one pod is
  // master, the oldest initial healthy master or else the oldest healthy pod.
  lemma ConvergesCallByCall(r: seq<State>, steps: seq<Step>, b: int, j: int, up: set<string>, t: string)
    requires SmoothRun(r, steps, up) && CallRound(r, steps, b, j) && IsTarget(r, b, up, t)
    ensures MastersOf(r[j]) == {t}
  {
    SamePods(r, steps, j);
    forall p | p in r[j] ensures p in MastersOf(r[j]) <==> p == t {
      assert HasObserved(steps, b, j, p);
      var a :| b <= a < j && Observes(steps, a, p);
      SettlesOnceObserved(r, steps, b, a, j, up, t, p);
    }
  }

  lemma SoleTargetStays(r: seq<State>, steps: seq<Step>, b: int, i: int, up: set<string>, t: string)
    requires SmoothRun(r, steps, up) && 0 <= b <= i < |steps| && Quiet(r[b]) && IsTarget(r, b, up, t)
    requires MastersOf(r[i]) == {t}
    ensures MastersOf(r[i + 1]) == {t}
  {
    RunOnCourse(r, steps, b, i, up, t);
    TargetStays(r, steps, b, i, up, t);
    assert t in MastersOf(r[i]);
    SamePods(r, steps, i);
    SamePods(r, steps, i + 1);
    forall q | q in r[i] && q != t ensures q !in MastersOf(r[i + 1]) {
      assert q !in MastersOf(r[i]);
      OthersStay(r, steps, b, i, up, t, q);
    }
  }

  // ... and at every later point of the run, whatever is pending then.
  lemma {:induction false} ConvergedForGood(r: seq<State>, steps: seq<Step>, b: int, j: int, k: int,
                                            up: set<string>, t: string)
    requires SmoothRun(r, steps, up) && CallRound(r, steps, b, j) && IsTarget(r, b, up, t) && j <= k < |r|
    ensures MastersOf(r[k]) == {t}
  {
    if j == k {
      ConvergesCallByCall(r, steps, b, j, up, t);
    } else {
      ConvergedForGood(r, steps, b, j, k - 1, up, t);
      SoleTargetStays(r, steps, b, k - 1, up, t);
    }
  }

  // -------------------------------------------- with pods that may not lead

  // Whoever is on the way up is the oldest healthy pod, may lead, and has no rival.
  ghost predicate RisersAlone(r: seq<State>, i: int, up: set<string>)
    requires 0 <= i < |r|
  {
    forall q :: q in r[i] && RedisPromote in r[i][q].todo ==> RiserAlone(r, i, up, q)
  }

  ghost predicate RiserAlone(r: seq<State>, i: int, up: set<string>, q: string)
    requires 0 <= i < |r|
  {
    OldestIn(r[0], up, q) && r[0][q].cfg.Promotable() && HealthyMasters(r[i], up) == {}
  }

  // A step removes healthy masters, or lets the one riser in where there was none.
  lemma MastersMove(r: seq<State>, steps: seq<Step>, i: int, up: set<string>)
    requires SmoothRun(r, steps, up) && 0 <= i < |steps| && RisersAlone(r, i, up)
    ensures || HealthyMasters(r[i + 1], up) <= HealthyMasters(r[i], up)
            || (steps[i].pod in r[i] && RedisPromote in r[i][steps[i].pod].todo && steps[i].Perform?
                && HealthyMasters(r[i + 1], up) <= {steps[i].pod})
  {
    assert Takes(r, steps, i);
    var p := steps[i].pod;
    RunConsistent(r, steps, i, p);
    if steps[i].Perform? {
      PerformedRole(r[i][p], steps[i].outcome);
      assert RedisPromote in r[i][p].todo ==> RiserAlone(r, i, up, p);
    }
  }

  lemma RiserStep(r: seq<State>, steps: seq<Step>, i: int, up: set<string>, q: string)
    requires SmoothRun(r, steps, up) && 0 <= i < |steps| && RisersAlone(r, i, up)
    requires q in r[i + 1] && RedisPromote in r[i + 1][q].todo
    ensures RiserAlone(r, i + 1, up, q)
  {
    assert Takes(r, steps, i);
    MastersMove(r, steps, i, up);
    var p := steps[i].pod;
    RunConsistent(r, steps, i, p);
    if q != p {
      assert RiserAlone(r, i, up, q);
      if RedisPromote in r[i][p].todo {
        assert RiserAlone(r, i, up, p);
        OldestInUnique(r[0], up, p, q);
      }
    } else if steps[i].Observe? {
      SeesTheCluster(r, steps, i, p, steps[i].seen, up);
      ObservedRises(r[i][p], steps[i].seen, r[0], HealthyMasters(r[i], up), up);
      SameConfig(r, steps, i, p);
    }
  }

  lemma {:induction false} RisersStayAlone(r: seq<State>, steps: seq<Step>, b: int, i: int, up: set<string>)
    requires SmoothRun(r, steps, up) && 0 <= b <= i < |r| && Quiet(r[b])
    ensures RisersAlone(r, i, up)
  {
    if i == b {
    } else {
      RisersStayAlone(r, steps, b, i - 1, up);
      var after := r[i];
      forall q | q in after && RedisPromote in after[q].todo ensures RiserAlone(r, i, up, q) {
        RiserStep(r, steps, i - 1, up, q);
      }
    }
  }

  // A healthy master that has observed and is not on the way down may lead and is the oldest.
  ghost predicate MasterSettled(r: seq<State>, i: int, up: set<string>, q: string)
    requires 0 <= i < |r|
  {
    q in HealthyMasters(r[i], up) && RedisReplicaOf !in r[i][q].todo ==>
      q in r[0] && r[0][q].cfg.Promotable() && OldestIn(r[0], HealthyMasters(r[i], up), q)
  }

  lemma OldestOfFewer(s: State, names: set<string>, fewer: set<string>, q: string)
    requires OldestIn(s, names, q) && fewer <= names && q in fewer
    ensures OldestIn(s, fewer, q)
  {
  }

  lemma ObservedSettles(r: seq<State>, steps: seq<Step>, i: int, up: set<string>, q: string)
    requires SmoothRun(r, steps, up) && 0 <= i < |steps| && Observes(steps, i, q)
    ensures MasterSettled(r, i + 1, up, q)
  {
    var o := steps[i].seen;
    SeesTheCluster(r, steps, i, q, o, up);
    SameConfig(r, steps, i, q);
    assert HealthyMasters(r[i + 1], up) == HealthyMasters(r[i], up);
    if q in HealthyMasters(r[i], up) { ObservedFalls(r[i][q], o, r[0], HealthyMasters(r[i], up), up); }
  }

  lemma SettledStays(r: seq<State>, steps: seq<Step>, i: int, up: set<string>, q: string)
    requires SmoothRun(r, steps, up) && 0 <= i < |steps| && RisersAlone(r, i, up)
    requires MasterSettled(r, i, up, q) && !Observes(steps, i, q)
    ensures MasterSettled(r, i + 1, up, q)
  {
    assert Takes(r, steps, i) && SmoothAt(r, steps, i, up);
    MastersMove(r, steps, i, up);
    if q in HealthyMasters(r[i + 1], up) && RedisReplicaOf !in r[i + 1][q].todo {
      RunConsistent(r, steps, i, q);
      if HealthyMasters(r[i + 1], up) <= HealthyMasters(r[i], up) {
        if q == steps[i].pod { PerformedCourse(r[i][q], steps[i].outcome); }
        assert RedisReplicaOf !in r[i][q].todo;
        OldestOfFewer(r[0], HealthyMasters(r[i], up), HealthyMasters(r[i + 1], up), q);
      } else {
        assert RiserAlone(r, i, up, q);
      }
    }
  }

  lemma {:induction false} SettledOnceObserved(r: seq<State>, steps: seq<Step>, b: int, a: int, j: int,
                                               up: set<string>, q: string)
    requires SmoothRun(r, steps, up) && 0 <= b <= a < j < |r| && Quiet(r[b]) && Observes(steps, a, q)
    ensures MasterSettled(r, j, up, q)
  {
    if Observes(steps, j - 1, q) {
      ObservedSettles(r, steps, j - 1, up, q);
    } else {
      SettledOnceObserved(r, steps, b, a, j - 1, up, q);
      RisersStayAlone(r, steps, b, j - 1, up);
      SettledStays(r, steps, j - 1, up, q);
    }
  }

  // After one round of calls there is no healthy master, or exactly one and it may stay.
  lemma CallRoundLeavesAtMostOne(r: seq<State>, steps: seq<Step>, b: int, j: int, up: set<string>)
    requires SmoothRun(r, steps, up) && CallRound(r, steps, b, j)
    ensures var masters := HealthyMasters(r[j], up);
            masters == {} || exists t :: masters == {t} && OldestIn(r[0], masters, t) && r[0][t].cfg.Promotable()
  {
    var masters := HealthyMasters(r[j], up);
    SamePods(r, steps, j);
    forall q | q in masters ensures OldestIn(r[0], masters, q) && r[0][q].cfg.Promotable() {
      assert HasObserved(steps, b, j, q);
      var a :| b <= a < j && Observes(steps, a, q);
      SettledOnceObserved(r, steps, b, a, j, up, q);
    }
    if masters != {} {
      var t :| t in masters;
      forall q | q in masters ensures q == t { OldestInUnique(r[0], masters, q, t); }
      assert masters == {t};
    }
  }

  // The oldest healthy master, or else the oldest healthy pod, may be master.
  ghost predicate SomeoneMayLead(s: State, up: set<string>)
  {
    || (exists t :: OldestIn(s, HealthyMasters(s, up), t) && s[t].cfg.Promotable())
    || (exists e :: OldestIn(s, up, e) && s[e].cfg.Promotable())
  }

  // If so, two rounds of calls leave exactly one master.
  lemma TwoCallRoundsLeaveOne(r: seq<State>, steps: seq<Step>, j: int, k: int, up: set<string>) returns (t: string)
    requires SmoothRun(r, steps, up) && CallRound(r, steps, 0, j) && CallRound(r, steps, j, k)
    requires SomeoneMayLead(r[0], up)
    ensures MastersOf(r[k]) == {t} && t in up
  {
    if x :| OldestIn(r[0], HealthyMasters(r[0], up), x) && r[0][x].cfg.Promotable() {
      t := x;
      assert IsTarget(r, 0, up, t);
      ConvergedForGood(r, steps, 0, j, k, up, t);
    } else {
      var e :| OldestIn(r[0], up, e) && r[0][e].cfg.Promotable();
      CallRoundLeavesAtMostOne(r, steps, 0, j, up);
      var masters := HealthyMasters(r[j], up);
      if masters == {} {
        t := e;
      } else {
        t :| masters == {t} && OldestIn(r[0], masters, t) && r[0][t].cfg.Promotable();
      }
      assert IsTarget(r, j, up, t);
      ConvergesCallByCall(r, steps, j, k, up, t);
    }
  }
}
