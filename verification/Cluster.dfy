/** The cluster as a transition system at the granularity of single calls.

    A sync is split: one step observes and decides, then each Redis or Kubernetes
    call is a step of its own, and steps of different pods interleave freely.
    Peer reports may be lost, delayed or stale, but each one was true when made. */
module Cluster {
  import opened PodOrder
  import opened Reconciliation
  import opened PeerCache

  // `todo` holds the calls of the sync in progress that are still to be made.
  datatype Node = Node(cfg: Config, view: Visible, cache: Cache, todo: seq<Call>)

  type State = map<string, Node>

  datatype Observation = Observation(now: int, ping: bool, replies: Cache, leader: bool, linkDown: bool)

  datatype Step =
    | Observe(pod: string, seen: Observation)
    | Perform(pod: string, outcome: Outcome)

  function Local(n: Node, o: Observation): PodState
  {
    if n.cfg.standalone then PodState(n.cfg.id, false, true, true, o.now)
    else PodState(n.cfg.id, n.view.master, o.ping, false, o.now)
  }

  function Refreshed(n: Node, o: Observation): Cache
  {
    Merge(n.cache, n.cfg.id.name, Local(n, o), o.replies, o.now)
  }

  ghost function Observed(n: Node, o: Observation): Node
  {
    var action := Decide(n.cfg, Refreshed(n, o), Local(n, o), o.leader);
    n.(cache := Refreshed(n, o), todo := Program(action, n.cfg.noPromote, o.linkDown))
  }

  function Performed(n: Node, o: Outcome): Node
    requires n.todo != []
  {
    n.(view := Effect(n.todo[0], o, n.view), todo := if Continues(n.todo[0], o) then n.todo[1..] else [])
  }

  ghost function Apply(s: State, step: Step): State
    requires step.pod in s && (step.Perform? ==> s[step.pod].todo != [])
  {
    match step
    case Observe(p, o) => s[p := Observed(s[p], o)]
    case Perform(p, o) => s[p := Performed(s[p], o)]
  }

  // The report was true of pod k in some state up to i.
  ghost predicate OnceTrue(r: seq<State>, i: int, k: string, st: PodState)
  {
    exists j :: 0 <= j <= i < |r| && k in r[j] && st.id == r[j][k].cfg.id && st.isMaster == r[j][k].view.master
  }

  ghost predicate WasMaster(r: seq<State>, i: int, k: string)
  {
    exists j :: 0 <= j <= i < |r| && k in r[j] && r[j][k].view.master
  }

  ghost predicate Enabled(r: seq<State>, i: int, step: Step)
    requires 0 <= i < |r|
  {
    && step.pod in r[i]
    && match step
       case Observe(p, o) =>
         && r[i][p].todo == [] && p !in o.replies
         && AllOnceTrue(r, i, o.replies)
       case Perform(p, _) => r[i][p].todo != []
  }

  // Any roles and labels to start with; nothing cached and nothing in progress.
  ghost predicate Init(s: State)
  {
    && (forall p :: p in s ==> s[p].cfg.id.name == p && s[p].cache == map[] && s[p].todo == [])
    && (forall p :: p in s && s[p].cfg.standalone ==> !s[p].view.master)
    && (forall p, q :: p in s && q in s && s[p].cfg.id.uid == s[q].cfg.id.uid ==> p == q)
  }

  ghost predicate Run(r: seq<State>, steps: seq<Step>)
  {
    && |r| == |steps| + 1 && Init(r[0])
    && forall i :: 0 <= i < |steps| ==> Takes(r, steps, i)
  }

  ghost predicate Takes(r: seq<State>, steps: seq<Step>, i: int)
    requires |r| == |steps| + 1 && 0 <= i < |steps|
  {
    Enabled(r, i, steps[i]) && r[i + 1] == Apply(r[i], steps[i])
  }

  // One sync has REPLICAOF as its only call exactly when it is to repair a replica's link;
  // likewise for its other calls.
  lemma SyncCallsIff(n: Node, o: Observation)
    requires OwnView(n.cfg, Refreshed(n, o), Local(n, o)) && (n.cfg.standalone ==> !n.view.master)
    ensures var c, calls, local := Refreshed(n, o), Observed(n, o).todo, Local(n, o);
            && local.isMaster == n.view.master
            && (calls == [RedisReplicaOf] <==> ShouldReattach(n.cfg, c, local, o.leader, o.linkDown))
            && (calls == [LabelSet] <==> ShouldLabel(n.cfg, c, local, o.leader))
            && (calls == [RedisPromote, LabelSet] <==> ShouldPromote(n.cfg, c, local, o.leader))
            && (calls == [LabelRemove, RedisReplicaOf] <==> ShouldDemote(n.cfg, c, local, o.leader))
            && |calls| <= 2 && (|calls| == 2 ==> calls[0] in {RedisPromote, LabelRemove})
  {
    CallsIff(n.cfg, Refreshed(n, o), Local(n, o), o.leader, o.linkDown);
  }

  // ------------------------------------------------------- what every run keeps

  // The shapes `todo` can have, with what each says about the pod.
  ghost predicate Consistent(n: Node)
  {
    && (n.cfg.standalone ==> !n.view.master && n.todo == [])
    && (n.cfg.noPromote ==> RedisPromote !in n.todo && LabelSet !in n.todo)
    && (|| n.todo == []
        || n.todo == [RedisPromote, LabelSet]
        || (n.todo == [LabelSet] && n.view.master)
        || n.todo == [LabelRemove, RedisReplicaOf]
        || n.todo == [RedisReplicaOf])
  }

  ghost predicate Kept(r: seq<State>, i: int)
    requires 0 <= i < |r|
  {
    && r[i].Keys == r[0].Keys
    && forall p :: p in r[i] ==>
         && r[i][p].cfg == r[0][p].cfg
         && Consistent(r[i][p])
         && AllOnceTrue(r, i, r[i][p].cache)
  }

  ghost predicate AllOnceTrue(r: seq<State>, i: int, c: Cache)
  {
    forall k :: k in c ==> OnceTrue(r, i, k, c[k])
  }

  lemma Witness(r: seq<State>, i: int, k: string, st: PodState) returns (j: int)
    requires OnceTrue(r, i, k, st)
    ensures 0 <= j <= i < |r| && k in r[j] && st.id == r[j][k].cfg.id && st.isMaster == r[j][k].view.master
  {
    j :| 0 <= j <= i < |r| && k in r[j] && st.id == r[j][k].cfg.id && st.isMaster == r[j][k].view.master;
  }

  lemma OwnViewHolds(r: seq<State>, i: int, p: string, o: Observation)
    requires 0 <= i < |r| && Init(r[0]) && p in r[i] && p !in o.replies
    requires forall j :: 0 <= j <= i ==> Kept(r, j)
    requires AllOnceTrue(r, i, o.replies)
    ensures OwnView(r[i][p].cfg, Refreshed(r[i][p], o), Local(r[i][p], o))
    ensures r[i][p].cfg.id.name == p
  {
    assert Kept(r, i);
    var n := r[i][p];
    var c := Refreshed(n, o);
    forall k | k in c && k != p ensures c[k].id.uid != n.cfg.id.uid {
      var j := Witness(r, i, k, c[k]);
      assert Kept(r, j);
    }
  }

  lemma ObservedIsConsistent(n: Node, o: Observation)
    requires Consistent(n) && OwnView(n.cfg, Refreshed(n, o), Local(n, o))
    ensures Consistent(Observed(n, o))
  {
    DecisionFitsRole(n.cfg, Refreshed(n, o), Local(n, o), o.leader);
  }

  lemma PerformedIsConsistent(n: Node, o: Outcome)
    requires Consistent(n) && n.todo != []
    ensures Consistent(Performed(n, o))
  {
  }

  lemma ConsistentByStep(r: seq<State>, steps: seq<Step>, i: int, q: string)
    requires Run(r, steps) && 0 <= i < |steps| && Takes(r, steps, i)
    requires forall j :: 0 <= j <= i ==> Kept(r, j)
    requires q in r[i + 1]
    ensures q in r[i] && r[i + 1][q].cfg == r[i][q].cfg && Consistent(r[i + 1][q])
  {
    assert Kept(r, i);
    if q == steps[i].pod {
      match steps[i]
      case Observe(_, o) =>
        OwnViewHolds(r, i, q, o);
        ObservedIsConsistent(r[i][q], o);
      case Perform(_, o) =>
        PerformedIsConsistent(r[i][q], o);
    }
  }

  lemma KeptByStep(r: seq<State>, steps: seq<Step>, i: int)
    requires Run(r, steps) && 0 <= i < |steps|
    requires forall j :: 0 <= j <= i ==> Kept(r, j)
    ensures Kept(r, i + 1)
  {
    assert Takes(r, steps, i) && Kept(r, i);
    var after := r[i + 1];
    forall q | q in after
      ensures q in r[i] && after[q].cfg == r[i][q].cfg && Consistent(after[q]) && AllOnceTrue(r, i + 1, after[q].cache)
    {
      ConsistentByStep(r, steps, i, q);
      TrueReports(r, steps, i, q);
    }
    assert after.Keys == r[i].Keys;
  }

  lemma TrueReports(r: seq<State>, steps: seq<Step>, i: int, q: string)
    requires Run(r, steps) && 0 <= i < |steps| && Kept(r, i) && q in r[i + 1]
    requires Takes(r, steps, i)
    ensures AllOnceTrue(r, i + 1, r[i + 1][q].cache)
  {
    var c := r[i + 1][q].cache;
    forall k | k in c ensures OnceTrue(r, i + 1, k, c[k]) {
      if q == steps[i].pod && steps[i].Observe? && k == q {
        assert c[k] == Local(r[i][q], steps[i].seen);
        assert k in r[i];
      } else {
        var j := Witness(r, i, k, c[k]);
      }
    }
  }

  lemma {:induction false} RunKeeps(r: seq<State>, steps: seq<Step>, i: int)
    requires Run(r, steps) && 0 <= i < |r|
    ensures forall j :: 0 <= j <= i ==> Kept(r, j)
  {
    if i == 0 {
    } else {
      RunKeeps(r, steps, i - 1);
      KeptByStep(r, steps, i - 1);
    }
  }

  lemma RunConsistent(r: seq<State>, steps: seq<Step>, i: int, p: string)
    requires Run(r, steps) && 0 <= i < |r| && p in r[i]
    ensures Consistent(r[i][p])
  {
    RunKeeps(r, steps, i);
    assert Kept(r, i);
  }

  lemma SamePods(r: seq<State>, steps: seq<Step>, i: int)
    requires Run(r, steps) && 0 <= i < |r|
    ensures r[i].Keys == r[0].Keys
  {
    RunKeeps(r, steps, i);
    assert Kept(r, i);
  }

  lemma SameConfig(r: seq<State>, steps: seq<Step>, i: int, p: string)
    requires Run(r, steps) && 0 <= i < |r|
    ensures p in r[i] <==> p in r[0]
    ensures p in r[i] ==> r[i][p].cfg == r[0][p].cfg
  {
    RunKeeps(r, steps, i);
    assert Kept(r, i);
  }

  lemma RunOwnView(r: seq<State>, steps: seq<Step>, i: int, p: string, o: Observation)
    requires Run(r, steps) && 0 <= i < |steps| && steps[i] == Observe(p, o)
    ensures Takes(r, steps, i) && p in r[i] && r[i][p].cfg.id.name == p && Consistent(r[i][p])
    ensures OwnView(r[i][p].cfg, Refreshed(r[i][p], o), Local(r[i][p], o))
  {
    RunKeeps(r, steps, i);
    assert Takes(r, steps, i);
    OwnViewHolds(r, i, p, o);
    RunConsistent(r, steps, i, p);
  }

  // ------------------------------------------------------------- longer runs

  lemma OnceTrueStays(r: seq<State>, more: seq<State>, i: int, c: Cache)
    requires 0 <= i < |r| && AllOnceTrue(r, i, c)
    ensures AllOnceTrue(r + more, i, c)
  {
    forall k | k in c ensures OnceTrue(r + more, i, k, c[k]) {
      var j := Witness(r, i, k, c[k]);
      assert (r + more)[j] == r[j];
    }
  }

  lemma EnabledStays(r: seq<State>, more: seq<State>, i: int, step: Step)
    requires 0 <= i < |r| && Enabled(r, i, step)
    ensures Enabled(r + more, i, step)
  {
    assert (r + more)[i] == r[i];
    if step.Observe? { OnceTrueStays(r, more, i, step.seen.replies); }
  }

  // An enabled step extends a run.
  lemma RunExtends(r: seq<State>, steps: seq<Step>, step: Step)
    requires Run(r, steps) && Enabled(r, |steps|, step)
    ensures Run(r + [Apply(r[|steps|], step)], steps + [step])
  {
    var next := Apply(r[|steps|], step);
    var r', steps' := r + [next], steps + [step];
    forall i | 0 <= i < |steps'| ensures Takes(r', steps', i) {
      if i < |steps| {
        assert Takes(r, steps, i) && steps'[i] == steps[i] && r'[i + 1] == r[i + 1];
      }
      EnabledStays(r, [next], i, steps'[i]);
    }
  }

  // ------------------------------------------------------------ never masterless

  ghost predicate DeterministicMode(s: State) { forall p :: p in s ==> s[p].cfg.mode == Deterministic }

  // Some pod that has been master is older than q.
  ghost predicate Outranked(r: seq<State>, i: int, q: string)
    requires 0 <= i < |r| && q in r[0]
  {
    exists x :: x in r[0] && WasMaster(r, i, x) && Older(r[0][x].cfg.id, r[0][q].cfg.id)
  }

  // Whoever lost the role, or is about to, is outranked.
  ghost predicate LosersOutranked(r: seq<State>, i: int)
    requires 0 <= i < |r|
  {
    forall q :: q in r[i] && q in r[0] ==> LoserOutranked(r, i, q)
  }

  ghost predicate LoserOutranked(r: seq<State>, i: int, q: string)
    requires 0 <= i < |r| && q in r[i] && q in r[0]
  {
    && (WasMaster(r, i, q) && !r[i][q].view.master ==> Outranked(r, i, q))
    && (RedisReplicaOf in r[i][q].todo && r[i][q].view.master ==> Outranked(r, i, q))
  }

  // A master that nobody outranks decides to step down: it may not lead or failed its
  // own ping, and it sees a healthy pod.
  ghost predicate Breaks(r: seq<State>, steps: seq<Step>, i: int)
    requires |r| > |steps| && 0 <= i < |steps|
  {
    var p := steps[i].pod;
    && steps[i].Observe? && p in r[i] && p in r[0] && r[i][p].view.master
    && (r[i][p].cfg.noPromote || !steps[i].seen.ping)
    && HealthyKeys(Refreshed(r[i][p], steps[i].seen)) != {}
    && !Outranked(r, i, p)
  }

  ghost predicate Unbroken(r: seq<State>, steps: seq<Step>)
    requires |r| > |steps|
  {
    forall i :: 0 <= i < |steps| ==> !Breaks(r, steps, i)
  }

  lemma OutrankedStays(r: seq<State>, i: int, q: string)
    requires 0 <= i < |r| - 1 && q in r[0] && Outranked(r, i, q)
    ensures Outranked(r, i + 1, q)
  {
    var x :| x in r[0] && WasMaster(r, i, x) && Older(r[0][x].cfg.id, r[0][q].cfg.id);
    WasMasterStays(r, i, x);
  }

  lemma WasMasterStays(r: seq<State>, i: int, x: string)
    requires 0 <= i < |r| - 1 && WasMaster(r, i, x)
    ensures WasMaster(r, i + 1, x)
  {
    var j :| 0 <= j <= i < |r| && x in r[j] && r[j][x].view.master;
  }

  // A demotion decided by a master that answered its ping names an older master.
  lemma DemotionNamesOlder(n: Node, o: Observation) returns (k: string)
    requires n.cfg.mode == Deterministic && n.cfg.Promotable() && n.view.master && o.ping
    requires OwnView(n.cfg, Refreshed(n, o), Local(n, o)) && RedisReplicaOf in Observed(n, o).todo
    ensures k in MasterKeys(Refreshed(n, o)) && k != n.cfg.id.name && Older(Refreshed(n, o)[k].id, n.cfg.id)
  {
    var c, local := Refreshed(n, o), Local(n, o);
    DecisionFitsRole(n.cfg, c, local, o.leader);
    assert n.cfg.id.name in HealthyKeys(c);
    DemotesIff(n.cfg, c, local, o.leader);
    k :| k in MasterKeys(c) && Older(c[k].id, n.cfg.id);
    OlderTrichotomy(n.cfg.id, n.cfg.id);
  }

  // An answered ping and a promotable pod, or a view without healthy pods: the only
  // demotions left are those in favour of an older master.
  lemma DemotionIsOutranked(r: seq<State>, steps: seq<Step>, i: int)
    requires Run(r, steps) && 0 <= i < |steps| && steps[i].Observe?
    requires forall j :: 0 <= j <= i ==> Kept(r, j)
    requires DeterministicMode(r[0]) && !Breaks(r, steps, i)
    requires Takes(r, steps, i) && r[i][steps[i].pod].view.master
    requires RedisReplicaOf in Observed(r[i][steps[i].pod], steps[i].seen).todo
    ensures steps[i].pod in r[0] && Outranked(r, i, steps[i].pod)
  {
    assert Kept(r, i);
    var p, o := steps[i].pod, steps[i].seen;
    OwnViewHolds(r, i, p, o);
    if !Outranked(r, i, p) {
      var k := DemotionNamesOlder(r[i][p], o);
      var j := Witness(r, i, k, Refreshed(r[i][p], o)[k]);
      assert Kept(r, j);
    }
  }

  // Losing the role takes a pending REPLICAOF; gaining it takes a pending promotion.
  lemma PerformedRole(n: Node, o: Outcome)
    requires n.todo != [] && Consistent(n)
    ensures !Performed(n, o).view.master ==> !n.view.master || RedisReplicaOf in n.todo
    ensures Performed(n, o).view.master ==> n.view.master || RedisPromote in n.todo
    ensures RedisReplicaOf in Performed(n, o).todo ==> RedisReplicaOf in n.todo
    ensures Performed(n, o).view.master && RedisReplicaOf in Performed(n, o).todo ==> n.view.master
  {
  }

  lemma WasMasterSplits(r: seq<State>, i: int, q: string)
    requires 0 <= i < |r| - 1 && WasMaster(r, i + 1, q)
    ensures WasMaster(r, i, q) || (q in r[i + 1] && r[i + 1][q].view.master)
  {
    var j :| 0 <= j <= i + 1 && q in r[j] && r[j][q].view.master;
    if j <= i { assert WasMaster(r, i, q); }
  }

  lemma LoserOutrankedByStep(r: seq<State>, steps: seq<Step>, i: int, q: string)
    requires Run(r, steps) && 0 <= i < |steps|
    requires forall j :: 0 <= j <= i + 1 ==> Kept(r, j)
    requires DeterministicMode(r[0]) && Unbroken(r, steps) && LosersOutranked(r, i)
    requires q in r[0] && q in r[i + 1]
    ensures LoserOutranked(r, i + 1, q)
  {
    assert Kept(r, i) && Kept(r, i + 1);
    assert Takes(r, steps, i);
    assert q in r[i] && LoserOutranked(r, i, q);
    var n, n' := r[i][q], r[i + 1][q];
    if WasMaster(r, i + 1, q) { WasMasterSplits(r, i, q); }
    if Outranked(r, i, q) { OutrankedStays(r, i, q); }
    assert n.view.master ==> WasMaster(r, i, q);
    if q == steps[i].pod {
      if steps[i].Perform? {
        PerformedRole(n, steps[i].outcome);
      } else if n.view.master && RedisReplicaOf in n'.todo {
        DemotionIsOutranked(r, steps, i);
        OutrankedStays(r, i, q);
      }
    }
  }

  lemma LosersOutrankedByStep(r: seq<State>, steps: seq<Step>, i: int)
    requires Run(r, steps) && 0 <= i < |steps|
    requires DeterministicMode(r[0]) && Unbroken(r, steps) && LosersOutranked(r, i)
    ensures LosersOutranked(r, i + 1)
  {
    RunKeeps(r, steps, i + 1);
    var after := r[i + 1];
    forall q | q in after && q in r[0] ensures LoserOutranked(r, i + 1, q) {
      LoserOutrankedByStep(r, steps, i, q);
    }
  }

  lemma NobodyLostYet(r: seq<State>)
    requires r != [] && Init(r[0])
    ensures LosersOutranked(r, 0)
  {
  }

  lemma {:induction false} RunOutranksLosers(r: seq<State>, steps: seq<Step>, i: int)
    requires Run(r, steps) && 0 <= i < |r|
    requires DeterministicMode(r[0]) && Unbroken(r, steps)
    ensures LosersOutranked(r, i)
  {
    if i == 0 {
      NobodyLostYet(r);
    } else {
      RunOutranksLosers(r, steps, i - 1);
      LosersOutrankedByStep(r, steps, i - 1);
    }
  }

  lemma BreakerStepsDown(n: Node, o: Observation)
    requires n.cfg.mode == Deterministic && n.view.master && Consistent(n)
    requires OwnView(n.cfg, Refreshed(n, o), Local(n, o)) && HealthyKeys(Refreshed(n, o)) != {}
    requires n.cfg.noPromote || !o.ping
    ensures Observed(n, o).todo == [LabelRemove, RedisReplicaOf]
  {
    DemotesIff(n.cfg, Refreshed(n, o), Local(n, o), o.leader);
  }

  // A break leaves a master about to step down that nobody outranks.
  lemma BreakQueuesDemotion(r: seq<State>, steps: seq<Step>, i: int)
    requires Run(r, steps) && DeterministicMode(r[0]) && 0 <= i < |steps| && Breaks(r, steps, i)
    ensures var p := steps[i].pod;
            && p in r[i + 1] && r[i + 1][p].view.master && r[i + 1][p].todo == [LabelRemove, RedisReplicaOf]
            && !Outranked(r, i + 1, p)
    ensures !LosersOutranked(r, i + 1)
  {
    var p, o := steps[i].pod, steps[i].seen;
    RunOwnView(r, steps, i, p, o);
    SameConfig(r, steps, i, p);
    BreakerStepsDown(r[i][p], o);
    if Outranked(r, i + 1, p) { ObservingOutranksNobody(r, steps, i, p); }
    assert !LoserOutranked(r, i + 1, p);
  }

  lemma ObservingOutranksNobody(r: seq<State>, steps: seq<Step>, i: int, p: string)
    requires Run(r, steps) && 0 <= i < |steps| && Takes(r, steps, i) && steps[i].Observe?
    requires p in r[0] && Outranked(r, i + 1, p)
    ensures Outranked(r, i, p)
  {
    var x :| x in r[0] && WasMaster(r, i + 1, x) && Older(r[0][x].cfg.id, r[0][p].cfg.id);
    WasMasterSplits(r, i, x);
    assert WasMaster(r, i, x);
  }

  // Exactly when every pod that loses the role, or is about to, gives way to an older
  // one: when no master that nobody outranks decides to step down.
  lemma LosersOutrankedIff(r: seq<State>, steps: seq<Step>)
    requires Run(r, steps) && DeterministicMode(r[0])
    ensures (forall i :: 0 <= i < |r| ==> LosersOutranked(r, i)) <==> Unbroken(r, steps)
  {
    if Unbroken(r, steps) {
      forall i | 0 <= i < |r| ensures LosersOutranked(r, i) { RunOutranksLosers(r, steps, i); }
    } else {
      var i :| 0 <= i < |steps| && Breaks(r, steps, i);
      BreakQueuesDemotion(r, steps, i);
      assert 0 <= i + 1 < |r|;
    }
  }

  // A queued demotion runs to its end in two more steps.
  lemma DemotionRunsOut(r: seq<State>, steps: seq<Step>, p: string) returns (s1: State, s2: State, steps': seq<Step>)
    requires Run(r, steps) && p in r[|steps|] && r[|steps|][p].todo == [LabelRemove, RedisReplicaOf]
    ensures Run(r + [s1] + [s2], steps') && steps <= steps' && |steps'| == |steps| + 2
    ensures p in s2 && !s2[p].view.master
    ensures forall x :: (x in s1 && s1[x].view.master) || (x in s2 && s2[x].view.master) ==>
              x in r[|steps|] && r[|steps|][x].view.master
  {
    var call := Perform(p, Done);
    s1 := Apply(r[|steps|], call);
    RunExtends(r, steps, call);
    s2 := Apply(s1, call);
    RunExtends(r + [s1], steps + [call], call);
    steps' := steps + [call] + [call];
  }

  lemma DemotionCrownsNobody(r: seq<State>, s1: State, s2: State, p: string)
    requires r != [] && p in r[0]
    requires forall x :: (x in s1 && s1[x].view.master) || (x in s2 && s2[x].view.master) ==>
               x in r[|r| - 1] && r[|r| - 1][x].view.master
    requires Outranked(r + [s1] + [s2], |r| + 1, p)
    ensures Outranked(r, |r| - 1, p)
  {
    var r': seq<State> := r + [s1] + [s2];
    assert r'[0] == r[0];
    var x :| x in r[0] && WasMaster(r', |r| + 1, x) && Older(r[0][x].cfg.id, r[0][p].cfg.id);
    var j :| 0 <= j <= |r| + 1 && x in r'[j] && r'[j][x].view.master;
    if j < |r| {
      assert r'[j] == r[j];
    } else {
      assert r'[j] == s1 || r'[j] == s2;
    }
    assert WasMaster(r, |r| - 1, x);
  }

  // And a break does cost the role if the run goes on: after the pod's two calls the
  // oldest pod that has ever been master is a replica.
  lemma BreakDethrones(r: seq<State>, steps: seq<Step>) returns (r': seq<State>, steps': seq<Step>)
    requires Run(r, steps) && DeterministicMode(r[0]) && steps != [] && Breaks(r, steps, |steps| - 1)
    ensures Run(r', steps') && r <= r' && steps <= steps' && |steps'| == |steps| + 2
    ensures var p := steps[|steps| - 1].pod;
            && p in r'[|steps'|] && WasMaster(r', |steps'|, p) && !r'[|steps'|][p].view.master
            && !Outranked(r', |steps'|, p)
  {
    var n := |steps|;
    var p := steps[n - 1].pod;
    BreakQueuesDemotion(r, steps, n - 1);
    var s1, s2;
    s1, s2, steps' := DemotionRunsOut(r, steps, p);
    r' := r + [s1] + [s2];
    assert r'[n] == r[n] && r'[n][p].view.master;
    if Outranked(r', n + 2, p) { DemotionCrownsNobody(r, s1, s2, p); }
  }

  ghost predicate HasMaster(s: State) { exists m :: m in s && s[m].view.master }

  // At every point of every run the oldest pod that has ever been master is master.
  lemma OldestEverMasterStillIs(r: seq<State>, steps: seq<Step>, i: int, m: string)
    requires Run(r, steps) && 0 <= i < |r|
    requires DeterministicMode(r[0]) && Unbroken(r, steps)
    requires m in r[0] && WasMaster(r, i, m)
    requires forall x :: x in r[0] && x != m && WasMaster(r, i, x) ==> Older(r[0][m].cfg.id, r[0][x].cfg.id)
    ensures m in r[i] && r[i][m].view.master
  {
    RunOutranksLosers(r, steps, i);
    SamePods(r, steps, i);
    assert LoserOutranked(r, i, m);
    if !r[i][m].view.master {
      var x :| x in r[0] && WasMaster(r, i, x) && Older(r[0][x].cfg.id, r[0][m].cfg.id);
      OlderTrichotomy(r[0][x].cfg.id, r[0][m].cfg.id);
    }
  }

  // So a cluster that has had a master always has one.
  lemma NeverMasterless(r: seq<State>, steps: seq<Step>, i: int)
    requires Run(r, steps) && 0 <= i < |r|
    requires DeterministicMode(r[0]) && Unbroken(r, steps)
    requires exists q :: q in r[0] && WasMaster(r, i, q)
    ensures HasMaster(r[i])
  {
    var ever := set q | q in r[0] && WasMaster(r, i, q);
    var ids := set q | q in ever :: r[0][q].cfg.id;
    var q0 :| q0 in r[0] && WasMaster(r, i, q0);
    assert r[0][q0].cfg.id in ids;
    var oldest := Oldest(ids);
    var m :| m in ever && r[0][m].cfg.id == oldest;
    forall x | x in r[0] && x != m && WasMaster(r, i, x) ensures Older(r[0][m].cfg.id, r[0][x].cfg.id) {
      assert r[0][x].cfg.id in ids;
      assert r[0][x].cfg.id.name == x && r[0][m].cfg.id.name == m;
    }
    OldestEverMasterStillIs(r, steps, i, m);
  }

  // The condition is not idle, for every pair of pods: the only master fails its ping,
  // sees a healthy replica, and steps down with nobody to take over.
  lemma FailedPingLeavesNoMaster(a: Config, b: Config) returns (r: seq<State>, steps: seq<Step>)
    requires a.id.name != b.id.name && a.id.uid != b.id.uid && !a.standalone && !a.noPromote
    requires a.mode == Deterministic && b.mode == Deterministic
    ensures Run(r, steps) && DeterministicMode(r[0]) && r[0].Keys == {a.id.name, b.id.name}
    ensures HasMaster(r[0]) && !HasMaster(r[|steps|]) && !Unbroken(r, steps)
  {
    var p, q := a.id.name, b.id.name;
    var na, nb := Node(a, Visible(true, true), map[], []), Node(b, Visible(false, false), map[], []);
    var reply := PodState(b.id, false, true, false, 0);
    var o := Observation(0, false, map[q := reply], false, false);
    var n1 := StepsDownOnFailedPing(na, o, q);
    var n2 := Performed(n1, Done);
    var n3 := Performed(n2, Done);
    assert n2.todo == [RedisReplicaOf] && n3.todo == [] && !n3.view.master;
    steps := [Observe(p, o), Perform(p, Done), Perform(p, Done)];
    r := [map[p := na, q := nb], map[p := n1, q := nb], map[p := n2, q := nb], map[p := n3, q := nb]];
    assert q in r[0] && p in r[0] && r[0][p].view.master;
    assert OnceTrue(r, 0, q, reply);
    assert Init(r[0]);
    ThreeSteps(r, steps);
    LastMasterLost(r, steps, p);
  }

  lemma LastMasterLost(r: seq<State>, steps: seq<Step>, p: string)
    requires Run(r, steps) && DeterministicMode(r[0]) && p in r[0] && r[0][p].view.master && !HasMaster(r[|steps|])
    ensures !Unbroken(r, steps)
  {
    if Unbroken(r, steps) {
      assert WasMaster(r, |steps|, p);
      NeverMasterless(r, steps, |steps|);
    }
  }

  lemma ThreeSteps(r: seq<State>, steps: seq<Step>)
    requires |r| == 4 && |steps| == 3 && Init(r[0])
    requires Takes(r, steps, 0) && Takes(r, steps, 1) && Takes(r, steps, 2)
    ensures Run(r, steps)
  {
    forall i | 0 <= i < |steps| ensures Takes(r, steps, i) {
      assert i == 0 || i == 1 || i == 2;
    }
  }

  lemma StepsDownOnFailedPing(n: Node, o: Observation, peer: string) returns (n': Node)
    requires n.cfg.mode == Deterministic && !n.cfg.standalone && n.view.master && !o.ping && n.cache == map[]
    requires o.replies.Keys == {peer} && peer != n.cfg.id.name
    requires o.replies[peer].isHealthy && o.replies[peer].id.uid != n.cfg.id.uid && !Stale(o.replies[peer], o.now)
    ensures n' == Observed(n, o) && n'.todo == [LabelRemove, RedisReplicaOf]
  {
    var c := Refreshed(n, o);
    assert peer in HealthyKeys(c);
    DemotesIff(n.cfg, c, Local(n, o), o.leader);
    n' := Observed(n, o);
  }

  // ---------------------------------------------------------------- label safety

  ghost predicate LabelSafe(n: Node)
  {
    && (n.view.labelled ==> n.view.master)
    && (n.todo == [RedisReplicaOf] ==> !n.view.labelled)
  }

  ghost predicate AllLabelSafe(s: State) { forall p :: p in s ==> LabelSafe(s[p]) }

  // A removal is refused on a pod that carries the label.
  predicate Strays(r: seq<State>, steps: seq<Step>, i: int)
    requires |r| > |steps| && 0 <= i < |steps|
  {
    var p := steps[i].pod;
    && steps[i].Perform? && p in r[i] && r[i][p].todo != [] && r[i][p].todo[0] == LabelRemove
    && r[i][p].view.labelled && steps[i].outcome == Refused
  }

  lemma LabelSafeByStep(r: seq<State>, steps: seq<Step>, i: int)
    requires Run(r, steps) && 0 <= i < |steps|
    requires forall j :: 0 <= j <= i ==> Kept(r, j)
    requires AllLabelSafe(r[i])
    ensures AllLabelSafe(r[i + 1]) <==> !Strays(r, steps, i)
  {
    assert Kept(r, i) && Takes(r, steps, i);
    var n := r[i][steps[i].pod];
    assert LabelSafe(n) && Consistent(n);
    if steps[i].Observe? {
      var o := steps[i].seen;
      OwnViewHolds(r, i, steps[i].pod, o);
      DecisionFitsRole(n.cfg, Refreshed(n, o), Local(n, o), o.leader);
    }
    assert LabelSafe(r[i + 1][steps[i].pod]) <==> !Strays(r, steps, i);
  }

  // In both modes, whatever the other calls do: between any two calls of any run, a
  // labelled pod is a Redis master, as long as no labelled pod's removal is refused.
  lemma {:induction false} LabelledImpliesMaster(r: seq<State>, steps: seq<Step>, i: int)
    requires Run(r, steps) && 0 <= i < |r|
    requires forall k :: 0 <= k < i ==> !Strays(r, steps, k)
    requires forall p :: p in r[0] && r[0][p].view.labelled ==> r[0][p].view.master
    ensures AllLabelSafe(r[i])
  {
    if i == 0 {
    } else {
      LabelledImpliesMaster(r, steps, i - 1);
      RunKeeps(r, steps, i - 1);
      LabelSafeByStep(r, steps, i - 1);
    }
  }

  // ... and exactly then: a refused removal leaves a labelled pod about to be a replica.
  lemma LabelsSafeIff(r: seq<State>, steps: seq<Step>)
    requires Run(r, steps)
    requires forall p :: p in r[0] && r[0][p].view.labelled ==> r[0][p].view.master
    ensures (forall i :: 0 <= i < |r| ==> AllLabelSafe(r[i]))
       <==> (forall i :: 0 <= i < |steps| ==> !Strays(r, steps, i))
  {
    if forall i :: 0 <= i < |steps| ==> !Strays(r, steps, i) {
      forall i | 0 <= i < |r| ensures AllLabelSafe(r[i]) { LabelledImpliesMaster(r, steps, i); }
    } else {
      var i :| 0 <= i < |steps| && Strays(r, steps, i);
      if AllLabelSafe(r[i]) {
        RunKeeps(r, steps, i);
        LabelSafeByStep(r, steps, i);
      }
    }
  }

  // The hypothesis is exact for each demotion of a labelled master.
  lemma DemotionKeepsLabelSafeIff(n: Node, removal: Outcome, replicaOf: Outcome)
    requires n.todo == [LabelRemove, RedisReplicaOf] && n.view == Visible(true, true)
    ensures Performed(n, removal).todo != []
    ensures var done := Performed(Performed(n, removal), replicaOf).view;
            (done.labelled ==> done.master) <==> removal != Refused || replicaOf == Refused
  {
  }

  ghost predicate StrayLabel(s: State, p: string)
  {
    p in s && s[p].view.labelled && (s[p].view.master || LabelRemove !in s[p].todo)
  }

  lemma StrayLabelStep(r: seq<State>, steps: seq<Step>, i: int, p: string)
    requires Run(r, steps) && 0 <= i < |steps| && StrayLabel(r[i], p) && !r[i][p].view.master
    ensures StrayLabel(r[i + 1], p)
  {
    RunKeeps(r, steps, i);
    assert Kept(r, i) && Consistent(r[i][p]);
    assert Takes(r, steps, i);
    if steps[i].pod == p && steps[i].Observe? {
      var n, o := r[i][p], steps[i].seen;
      OwnViewHolds(r, i, p, o);
      DecisionFitsRole(n.cfg, Refreshed(n, o), Local(n, o), o.leader);
    }
  }

  // After a refused removal nothing clears the label while the pod stays a replica.
  lemma {:induction false} StrayLabelStays(r: seq<State>, steps: seq<Step>, i: int, j: int, p: string)
    requires Run(r, steps) && 0 <= i <= j < |r| && StrayLabel(r[i], p)
    requires forall k :: i <= k <= j && p in r[k] ==> !r[k][p].view.master
    ensures StrayLabel(r[j], p)
  {
    if i == j {
    } else {
      StrayLabelStays(r, steps, i, j - 1, p);
      StrayLabelStep(r, steps, j - 1, p);
    }
  }

  // ------------------------------------------------------- no-promote over runs

  lemma NoPromoteStep(r: seq<State>, steps: seq<Step>, i: int, p: string)
    requires Run(r, steps) && 0 <= i < |steps| && p in r[i] && r[i][p].cfg.noPromote
    ensures p in r[i + 1] && r[i + 1][p].cfg == r[i][p].cfg
    ensures r[i + 1][p].view.master ==> r[i][p].view.master
    ensures r[i + 1][p].view.labelled ==> r[i][p].view.labelled
  {
    RunConsistent(r, steps, i, p);
    assert Takes(r, steps, i);
  }

  // In both modes a no-promote pod never gains the role or the label.
  lemma {:induction false} NoPromoteNeverGains(r: seq<State>, steps: seq<Step>, i: int, j: int, p: string)
    requires Run(r, steps) && 0 <= i <= j < |r| && p in r[i] && r[i][p].cfg.noPromote
    ensures p in r[j] && r[j][p].cfg.noPromote
    ensures r[j][p].view.master ==> r[i][p].view.master
    ensures r[j][p].view.labelled ==> r[i][p].view.labelled
  {
    if i == j {
    } else {
      NoPromoteNeverGains(r, steps, i, j - 1, p);
      NoPromoteStep(r, steps, j - 1, p);
    }
  }

  // ----------------------------------------------------------- where calls lead

  predicate TakesEffect(call: Call, o: Outcome) { o != Refused || call.LabelSet? || call.LabelRemove? }

  // If the step at k is a call of p to Redis, it takes effect.
  predicate Effective(r: seq<State>, steps: seq<Step>, k: int, p: string)
    requires |r| > |steps| && 0 <= k < |steps|
  {
    steps[k].Perform? && steps[k].pod == p && p in r[k] && r[k][p].todo != [] ==>
      TakesEffect(r[k][p].todo[0], steps[k].outcome)
  }

  // The calls in progress end in this role.
  ghost predicate Heading(n: Node, master: bool)
  {
    && (n.todo == [] || n.todo == [LabelSet] ==> n.view.master == master)
    && (RedisPromote in n.todo || LabelSet in n.todo ==> master)
    && (RedisReplicaOf in n.todo ==> !master)
  }

  lemma HeadingByCall(n: Node, o: Outcome, master: bool)
    requires Consistent(n) && n.todo != [] && TakesEffect(n.todo[0], o) && Heading(n, master)
    ensures Heading(Performed(n, o), master)
  {
  }

  lemma HeadingStep(r: seq<State>, steps: seq<Step>, k: int, p: string, master: bool)
    requires Run(r, steps) && 0 <= k < |steps| && p in r[k] && Heading(r[k][p], master)
    requires Effective(r, steps, k, p) && !(steps[k].Observe? && steps[k].pod == p)
    ensures p in r[k + 1] && Heading(r[k + 1][p], master) && r[k + 1][p].cfg == r[k][p].cfg
  {
    assert Takes(r, steps, k);
    if steps[k].pod == p {
      RunConsistent(r, steps, k, p);
      HeadingByCall(r[k][p], steps[k].outcome, master);
    }
  }

  // A pod that does not observe again ends in the role it is heading for.
  lemma {:induction false} HeadingHolds(r: seq<State>, steps: seq<Step>, i: int, j: int, p: string, master: bool)
    requires Run(r, steps) && 0 <= i <= j < |r| && p in r[i] && Heading(r[i][p], master)
    requires forall k :: i <= k < j ==> Effective(r, steps, k, p) && !(steps[k].Observe? && steps[k].pod == p)
    ensures p in r[j] && Heading(r[j][p], master)
  {
    if i == j {
    } else {
      HeadingHolds(r, steps, i, j - 1, p, master);
      assert Effective(r, steps, j - 1, p);
      HeadingStep(r, steps, j - 1, p, master);
    }
  }

  lemma NoPromoteHeadsDown(r: seq<State>, steps: seq<Step>, i: int, p: string)
    requires Run(r, steps) && 0 <= i < |steps| && steps[i].Observe? && steps[i].pod == p
    requires p in r[i] && r[i][p].cfg.noPromote
    requires !r[i][p].view.master || HealthyKeys(Refreshed(r[i][p], steps[i].seen)) != {}
    ensures p in r[i + 1] && Heading(r[i + 1][p], false) && r[i + 1][p].cfg == r[i][p].cfg
  {
    var n, o := r[i][p], steps[i].seen;
    RunOwnView(r, steps, i, p, o);
    if n.view.master { NoPromoteDemotes(n.cfg, Refreshed(n, o), Local(n, o), o.leader); }
    DecisionFitsRole(n.cfg, Refreshed(n, o), Local(n, o), o.leader);
  }

  lemma {:induction false} NoPromoteStaysHeadedDown(r: seq<State>, steps: seq<Step>, i: int, j: int, p: string)
    requires Run(r, steps) && 0 <= i <= j < |r| && p in r[i] && r[i][p].cfg.noPromote && Heading(r[i][p], false)
    requires forall k :: i <= k < j ==> Effective(r, steps, k, p)
    ensures p in r[j] && r[j][p].cfg.noPromote && Heading(r[j][p], false)
  {
    if i == j {
    } else {
      NoPromoteStaysHeadedDown(r, steps, i, j - 1, p);
      assert Takes(r, steps, j - 1) && Effective(r, steps, j - 1, p);
      if steps[j - 1].Observe? && steps[j - 1].pod == p {
        NoPromoteHeadsDown(r, steps, j - 1, p);
      } else {
        HeadingStep(r, steps, j - 1, p, false);
      }
    }
  }

  // ... and is a replica for good once it has observed, at i, a healthy pod and its
  // calls are done, at j, the Redis commands among them having taken effect.
  lemma NoPromoteEndsAsReplica(r: seq<State>, steps: seq<Step>, i: int, j: int, k: int, p: string)
    requires Run(r, steps) && 0 <= i < j <= k < |r|
    requires steps[i].Observe? && steps[i].pod == p && p in r[i] && r[i][p].cfg.noPromote
    requires HealthyKeys(Refreshed(r[i][p], steps[i].seen)) != {}
    requires forall m :: i < m < j ==> Effective(r, steps, m, p)
    requires p in r[j] && r[j][p].todo == []
    ensures p in r[k] && !r[k][p].view.master
  {
    NoPromoteHeadsDown(r, steps, i, p);
    NoPromoteNeverGains(r, steps, i, i + 1, p);
    NoPromoteStaysHeadedDown(r, steps, i + 1, j, p);
    NoPromoteNeverGains(r, steps, j, k, p);
  }

  // ------------------------------------------------------------- witness safety

  // In either mode, whatever it sees, a witness never has a call to make and nothing
  // visible about it ever changes.
  lemma {:induction false} WitnessNeverActs(r: seq<State>, steps: seq<Step>, i: int, j: int, p: string)
    requires Run(r, steps) && 0 <= i <= j < |r| && p in r[i] && r[i][p].cfg.standalone
    ensures p in r[j] && r[j][p].cfg == r[i][p].cfg && r[j][p].todo == [] && r[j][p].view == r[i][p].view
  {
    if i == j {
    } else {
      WitnessNeverActs(r, steps, i, j - 1, p);
      assert Takes(r, steps, j - 1);
    }
    RunConsistent(r, steps, j, p);
  }

  // ------------------------------------------------------------------ whole syncs

  // Letting one pod's calls run to the end is what one whole sync does.
  function Finished(n: Node, o: Call -> Outcome): Node
    decreases |n.todo|
  {
    if n.todo == [] then n else Finished(Performed(n, o(n.todo[0])), o)
  }

  lemma {:induction false} FinishedIsRunCalls(n: Node, o: Call -> Outcome)
    ensures Finished(n, o) == n.(view := RunCalls(n.todo, o, n.view), todo := [])
    decreases |n.todo|
  {
    if n.todo == [] {
    } else {
      FinishedIsRunCalls(Performed(n, o(n.todo[0])), o);
    }
  }
}
