/** Raft mode: roles follow what each pod's Raft library answers at its own syncs.
    The library is an oracle: at any time any set of pods may believe it leads. */
module RaftMode {
  import opened PodOrder
  import opened Reconciliation
  import Cluster

  datatype Sight = NotSynced | Follower | Leader

  // `saw` records what the pod's library answered at its latest sync.
  datatype RaftPod = RaftPod(cfg: Config, view: Visible, saw: Sight)

  datatype Event =
    | LeadershipChange(leaders: set<string>)
    | Sync(pod: string, cache: Cache, healthy: bool, linkDown: bool, outcome: Call -> Outcome)

  datatype State = State(pods: map<string, RaftPod>, leaders: set<string>)

  // Redis commands take effect and some healthy pod is seen; label calls may fail.
  predicate Possible(s: State, e: Event)
  {
    e.Sync? ==>
      && e.pod in s.pods && HealthyKeys(e.cache) != {}
      && e.outcome(RedisPromote) != Refused && e.outcome(RedisReplicaOf) != Refused
  }

  ghost function Synced(p: RaftPod, e: Event, leads: bool): RaftPod
    requires e.Sync?
  {
    var local := PodState(p.cfg.id, p.view.master, e.healthy, p.cfg.standalone, 0);
    var calls := Program(Decide(p.cfg, e.cache, local, leads), p.cfg.noPromote, e.linkDown);
    p.(view := RunCalls(calls, e.outcome, p.view), saw := if leads then Leader else Follower)
  }

  ghost function Apply(s: State, e: Event): State
    requires Possible(s, e)
  {
    match e
    case LeadershipChange(leaders) => s.(leaders := leaders)
    case Sync(p, _, _, _, _) => s.(pods := s.pods[p := Synced(s.pods[p], e, p in s.leaders)])
  }

  predicate AllPossible(s: State, es: seq<Event>)
  {
    forall i :: 0 <= i < |es| ==> Possible(s, es[i])
  }

  ghost function Run(s: State, es: seq<Event>): (s': State)
    requires AllPossible(s, es)
    ensures s'.pods.Keys == s.pods.Keys
  {
    if es == [] then s
    else
      var n := |es| - 1;
      var before := Run(s, es[..n]);
      Apply(before, es[n])
  }

  ghost predicate WellFormed(s: State)
  {
    forall p :: p in s.pods ==>
      s.pods[p].cfg.mode == Raft && (s.pods[p].cfg.standalone ==> !s.pods[p].view.master)
  }

  // A pod that has synced is master exactly when it saw itself lead and may lead.
  ghost predicate OwnsItsRole(p: RaftPod)
  {
    p.saw != NotSynced ==> (p.view.master <==> p.saw == Leader && p.cfg.Promotable())
  }

  lemma SyncSettlesRole(p: RaftPod, e: Event, leads: bool)
    requires e.Sync? && p.cfg.mode == Raft && (p.cfg.standalone ==> !p.view.master)
    requires HealthyKeys(e.cache) != {}
    requires e.outcome(RedisPromote) != Refused && e.outcome(RedisReplicaOf) != Refused
    ensures OwnsItsRole(Synced(p, e, leads)) && Synced(p, e, leads).saw != NotSynced
    ensures Synced(p, e, leads).cfg == p.cfg
    ensures p.cfg.standalone ==> Synced(p, e, leads).view == p.view
  {
    TwoCalls(RedisPromote, LabelSet, e.outcome, p.view);
    TwoCalls(LabelRemove, RedisReplicaOf, e.outcome, p.view);
    OneCall(LabelSet, e.outcome, p.view);
    OneCall(RedisReplicaOf, e.outcome, p.view);
  }

  // When the label calls succeed too, a pod that leads and may lead ends labelled, and one
  // that gives up the role ends without the label.
  lemma SyncSettlesLabel(p: RaftPod, e: Event, leads: bool)
    requires e.Sync? && p.cfg.mode == Raft && !p.cfg.standalone && HealthyKeys(e.cache) != {}
    requires forall call :: e.outcome(call) == Done
    ensures leads && !p.cfg.noPromote ==> Synced(p, e, leads).view == Visible(true, true)
    ensures p.view.master && (!leads || p.cfg.noPromote) ==> Synced(p, e, leads).view == Visible(false, false)
    ensures !p.view.master && (!leads || p.cfg.noPromote) ==> Synced(p, e, leads).view == p.view
  {
    TwoCalls(RedisPromote, LabelSet, e.outcome, p.view);
    TwoCalls(LabelRemove, RedisReplicaOf, e.outcome, p.view);
    OneCall(LabelSet, e.outcome, p.view);
    OneCall(RedisReplicaOf, e.outcome, p.view);
  }

  ghost predicate RolesOwned(s: State) { forall p :: p in s.pods ==> OwnsItsRole(s.pods[p]) }

  // Over any history of leadership changes, every master that has synced saw itself
  // as leader at its latest sync, and everyone who saw so and may lead is master.
  lemma {:induction false} MastersSawThemselvesLead(s: State, es: seq<Event>)
    requires WellFormed(s) && AllPossible(s, es)
    requires forall p :: p in s.pods ==> s.pods[p].saw == NotSynced
    ensures WellFormed(Run(s, es)) && RolesOwned(Run(s, es))
    ensures forall p :: p in s.pods ==> Run(s, es).pods[p].cfg == s.pods[p].cfg
  {
    if es == [] {
    } else {
      var n := |es| - 1;
      var before := Run(s, es[..n]);
      MastersSawThemselvesLead(s, es[..n]);
      var e := es[n];
      if e.Sync? { SyncSettlesRole(before.pods[e.pod], e, e.pod in before.leaders); }
    }
  }

  ghost function Masters(s: State): set<string> { set p | p in s.pods && s.pods[p].view.master }

  ghost function SyncedPods(es: seq<Event>): set<string>
  {
    if es == [] then {}
    else SyncedPods(es[..|es| - 1]) + (if es[|es| - 1].Sync? then {es[|es| - 1].pod} else {})
  }

  // While only `l` leads, every pod that syncs settles as l's leadership says.
  lemma {:induction false} StableLeaderSettles(s: State, es: seq<Event>, l: string)
    requires WellFormed(s) && AllPossible(s, es) && s.leaders == {l}
    requires forall i :: 0 <= i < |es| ==> es[i].Sync?
    ensures Run(s, es).leaders == {l} && WellFormed(Run(s, es))
    ensures forall p :: p in s.pods ==> Run(s, es).pods[p].cfg == s.pods[p].cfg
    ensures forall p :: p in s.pods && p in SyncedPods(es) ==>
              (Run(s, es).pods[p].view.master <==> p == l && s.pods[p].cfg.Promotable())
  {
    if es == [] {
    } else {
      var n := |es| - 1;
      var before := Run(s, es[..n]);
      StableLeaderSettles(s, es[..n], l);
      var e := es[n];
      assert Possible(s, e);
      SyncSettlesRole(before.pods[e.pod], e, e.pod in before.leaders);
    }
  }

  // Once the leader is stable and every pod has synced since, the masters are exactly
  // that leader if it may lead, and nobody otherwise.
  lemma StableLeaderOwnsMastership(s: State, es: seq<Event>, l: string)
    requires WellFormed(s) && AllPossible(s, es) && s.leaders == {l} && l in s.pods
    requires forall i :: 0 <= i < |es| ==> es[i].Sync?
    requires s.pods.Keys <= SyncedPods(es)
    ensures Masters(Run(s, es)) == if s.pods[l].cfg.Promotable() then {l} else {}
  {
    StableLeaderSettles(s, es, l);
  }

  // ---------------------------------------------------------- the same, call by call

  // In a run of interleaved observations and calls: p's latest observation before j is
  // the one at i, it saw a healthy pod, and p's Redis commands since took effect.
  ghost predicate LatestObservation(r: seq<Cluster.State>, steps: seq<Cluster.Step>, i: int, j: int, p: string)
    requires Cluster.Run(r, steps) && 0 <= i < j < |r|
  {
    && steps[i].Observe? && steps[i].pod == p && p in r[i]
    && HealthyKeys(Cluster.Refreshed(r[i][p], steps[i].seen)) != {}
    && forall k :: i < k < j ==> Cluster.Effective(r, steps, k, p) && !(steps[k].Observe? && steps[k].pod == p)
  }

  lemma ObservationSetsHeading(n: Cluster.Node, o: Cluster.Observation)
    requires n.cfg.mode == Raft && Cluster.Consistent(n) && HealthyKeys(Cluster.Refreshed(n, o)) != {}
    ensures Cluster.Heading(Cluster.Observed(n, o), o.leader && n.cfg.Promotable())
  {
  }

  // A Raft pod with nothing pending is master exactly when its latest observation said
  // it leads and it may lead, whatever the other pods did in between.
  lemma RoleFollowsLatestObservation(r: seq<Cluster.State>, steps: seq<Cluster.Step>, i: int, j: int, p: string)
    requires Cluster.Run(r, steps) && 0 <= i < j < |r| && LatestObservation(r, steps, i, j, p)
    requires r[i][p].cfg.mode == Raft && p in r[j] && r[j][p].todo == []
    ensures r[j][p].view.master <==> steps[i].seen.leader && r[i][p].cfg.Promotable()
  {
    assert Cluster.Takes(r, steps, i);
    Cluster.RunConsistent(r, steps, i, p);
    ObservationSetsHeading(r[i][p], steps[i].seen);
    Cluster.HeadingHolds(r, steps, i + 1, j, p, steps[i].seen.leader && r[i][p].cfg.Promotable());
  }

  // p's latest observation before j said whether p is l.
  ghost predicate SawLeader(r: seq<Cluster.State>, steps: seq<Cluster.Step>, j: int, p: string, l: string)
    requires Cluster.Run(r, steps) && 0 <= j < |r|
  {
    exists i :: 0 <= i < j && LatestObservation(r, steps, i, j, p) && (steps[i].seen.leader <==> p == l)
  }

  // Once every pod's latest observation agrees on the leader and nothing is pending, the
  // masters are exactly that leader, or nobody if it may not lead.
  lemma AgreedLeaderOwnsMastership(r: seq<Cluster.State>, steps: seq<Cluster.Step>, j: int, l: string)
    requires Cluster.Run(r, steps) && 0 <= j < |r| && l in r[0]
    requires forall p :: p in r[0] ==> r[0][p].cfg.mode == Raft && SawLeader(r, steps, j, p, l)
    requires forall p :: p in r[j] ==> r[j][p].todo == []
    ensures (set p | p in r[j] && r[j][p].view.master) == if r[0][l].cfg.Promotable() then {l} else {}
  {
    Cluster.SamePods(r, steps, j);
    forall p | p in r[j] ensures r[j][p].view.master <==> p == l && r[0][p].cfg.Promotable() {
      assert SawLeader(r, steps, j, p, l);
      var i :| 0 <= i < j && LatestObservation(r, steps, i, j, p) && (steps[i].seen.leader <==> p == l);
      Cluster.SameConfig(r, steps, i, p);
      RoleFollowsLatestObservation(r, steps, i, j, p);
    }
  }
}
