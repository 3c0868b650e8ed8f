/** The cluster with atomic syncs: each step is one whole sync of one pod, with
    replies from every live pod and all calls taking effect. */
module Convergence {
  import opened PodOrder
  import opened Reconciliation
  import opened PeerCache

  datatype Member = Member(cfg: Config, healthy: bool, view: Visible, cache: Cache)

  type Members = map<string, Member>

  datatype Tick = Tick(pod: string, now: int, linkDown: bool)

  // ------------------------------------------------------------------ the system

  function Report(m: Member, now: int): PodState
  {
    if m.cfg.standalone then PodState(m.cfg.id, false, true, true, now)
    else PodState(m.cfg.id, m.view.master, m.healthy, false, now)
  }

  function Seen(c: Members, t: Tick): Cache
    requires t.pod in c
  {
    var replies := map q | q in c && q != t.pod :: Report(c[q], t.now);
    Merge(c[t.pod].cache, t.pod, Report(c[t.pod], t.now), replies, t.now)
  }

  ghost function Chosen(c: Members, t: Tick): Action
    requires t.pod in c
  {
    Decide(c[t.pod].cfg, Seen(c, t), Report(c[t.pod], t.now), false)
  }

  ghost function Sync(c: Members, t: Tick): (c': Members)
    requires t.pod in c
    ensures c'.Keys == c.Keys
  {
    var m := c[t.pod];
    var calls := Program(Chosen(c, t), m.cfg.noPromote, t.linkDown);
    c[t.pod := m.(cache := Seen(c, t), view := RunCalls(calls, _ => Done, m.view))]
  }

  predicate Scheduled(c: Members, s: seq<Tick>) { forall i :: 0 <= i < |s| ==> s[i].pod in c }

  ghost function Run(c: Members, s: seq<Tick>): (c': Members)
    requires Scheduled(c, s)
    ensures c'.Keys == c.Keys
    decreases |s|
  {
    if s == [] then c else Run(Sync(c, s[0]), s[1..])
  }

  // ------------------------------------------------------------------ vocabulary

  function Up(c: Members): set<string> { set q | q in c && c[q].healthy }

  function HealthyMasters(c: Members): set<string> { set q | q in c && c[q].healthy && c[q].view.master }

  ghost predicate IsOldestPod(c: Members, names: set<string>, m: string)
    requires names <= c.Keys
  {
    m in names && forall q :: q in names && q != m ==> Older(c[m].cfg.id, c[q].cfg.id)
  }

  // Pods are filed under their names, UIDs differ, and a witness is up and no master.
  ghost predicate WellFormed(c: Members)
  {
    && (forall q :: q in c ==> c[q].cfg.id.name == q && c[q].cfg.mode == Deterministic)
    && (forall q :: q in c && c[q].cfg.standalone ==> c[q].healthy && !c[q].view.master)
    && (forall p, q :: p in c && q in c && c[p].cfg.id.uid == c[q].cfg.id.uid ==> p == q)
  }

  // No pod remembers anyone outside the cluster.
  ghost predicate NoStrangers(c: Members) { forall q :: q in c ==> c[q].cache.Keys <= c.Keys }

  // Whoever is remembered from outside the cluster carries nobody's UID.
  ghost predicate NoImpostors(c: Members) { forall q :: q in c ==> NoImpostorIn(c, c[q].cache) }

  ghost predicate NoImpostorIn(c: Members, cache: Cache)
  {
    forall k, q :: k in cache && k !in c && q in c ==> cache[k].id.uid != c[q].cfg.id.uid
  }

  // The parts of a cluster that no sync changes.
  ghost predicate SameSetup(c: Members, c': Members)
  {
    c.Keys == c'.Keys && forall q :: q in c ==> c[q].cfg == c'[q].cfg && c[q].healthy == c'[q].healthy
  }

  lemma OldestPodExists(c: Members, names: set<string>) returns (m: string)
    requires WellFormed(c) && names <= c.Keys && names != {}
    ensures IsOldestPod(c, names, m)
  {
    var ids := set q | q in names :: c[q].cfg.id;
    var x :| x in names;
    assert c[x].cfg.id in ids;
    var oldest := Oldest(ids);
    m :| m in names && c[m].cfg.id == oldest;
    forall q | q in names && q != m ensures Older(c[m].cfg.id, c[q].cfg.id) {
      assert c[q].cfg.id in ids && c[q].cfg.id.name == q && c[m].cfg.id.name == m;
    }
  }

  lemma OldestPodUnique(c: Members, names: set<string>, m: string, m': string)
    requires names <= c.Keys && IsOldestPod(c, names, m) && IsOldestPod(c, names, m')
    ensures m == m'
  {
    OlderTrichotomy(c[m].cfg.id, c[m'].cfg.id);
  }

  // --------------------------------------------------------- what one sync does

  lemma SeenIsComplete(c: Members, t: Tick)
    requires WellFormed(c) && t.pod in c
    ensures forall q :: q in c ==> q in Seen(c, t) && Seen(c, t)[q] == Report(c[q], t.now)
    ensures forall k :: k in Seen(c, t) && k !in c ==>
              k in c[t.pod].cache && Seen(c, t)[k] == c[t.pod].cache[k] && !Stale(c[t.pod].cache[k], t.now)
  {
  }

  lemma SeenIsOwnView(c: Members, t: Tick)
    requires WellFormed(c) && NoImpostors(c) && t.pod in c
    ensures OwnView(c[t.pod].cfg, Seen(c, t), Report(c[t.pod], t.now))
  {
    SeenIsComplete(c, t);
  }

  // With nobody else remembered, the pod sees exactly the live cluster.
  lemma SeenIsTheCluster(c: Members, t: Tick)
    requires WellFormed(c) && NoStrangers(c) && t.pod in c
    ensures Seen(c, t).Keys == c.Keys
    ensures HealthyKeys(Seen(c, t)) == Up(c)
    ensures MasterKeys(Seen(c, t)) == HealthyMasters(c)
    ensures OwnView(c[t.pod].cfg, Seen(c, t), Report(c[t.pod], t.now))
  {
    SeenIsComplete(c, t);
  }

  lemma CallsDone(a: Action, noPromote: bool, linkDown: bool, v: Visible)
    requires a in {Demote, EnsureLabel} ==> v.master
    requires a == CheckReplication ==> !v.master
    ensures RunCalls(Program(a, noPromote, linkDown), _ => Done, v) ==
            Visible((a == Promote && !noPromote) || (v.master && a != Demote),
                    (a in {Promote, EnsureLabel} && !noPromote) || (v.labelled && a != Demote))
  {
    var done := (call: Call) => Done;
    TwoCalls(RedisPromote, LabelSet, done, v);
    TwoCalls(LabelRemove, RedisReplicaOf, done, v);
    OneCall(LabelSet, done, v);
    OneCall(RedisReplicaOf, done, v);
  }

  lemma SyncKeepsSetup(c: Members, t: Tick)
    requires WellFormed(c) && t.pod in c
    ensures SameSetup(c, Sync(c, t)) && WellFormed(Sync(c, t))
    ensures NoStrangers(c) ==> NoStrangers(Sync(c, t))
  {
    SeenIsComplete(c, t);
  }

  lemma SyncChangesOnlyItself(c: Members, t: Tick)
    requires WellFormed(c) && NoImpostors(c) && t.pod in c
    ensures forall q :: q in c && q != t.pod ==> Sync(c, t)[q] == c[q]
    ensures Sync(c, t)[t.pod].view ==
            var m, a := c[t.pod], Chosen(c, t);
            Visible(a == Promote || (m.view.master && a != Demote),
                    a == Promote || (a == EnsureLabel && !m.cfg.noPromote) || (m.view.labelled && a != Demote))
  {
    var m := c[t.pod];
    SeenIsOwnView(c, t);
    DecisionFitsRole(m.cfg, Seen(c, t), Report(m, t.now), false);
    CallsDone(Chosen(c, t), m.cfg.noPromote, t.linkDown, m.view);
  }

  lemma ChoosesPromoteIff(c: Members, t: Tick)
    requires WellFormed(c) && NoStrangers(c) && t.pod in c
    ensures Chosen(c, t) == Promote
       <==> c[t.pod].cfg.Promotable() && HealthyMasters(c) == {} && IsOldestPod(c, Up(c), t.pod)
  {
    SeenIsTheCluster(c, t);
    SeenIsComplete(c, t);
    PromotesIff(c[t.pod].cfg, Seen(c, t), Report(c[t.pod], t.now), false);
  }

  // A master steps down exactly when it may not be one, is unhealthy, or is not the oldest.
  lemma ChoosesDemoteIff(c: Members, t: Tick)
    requires WellFormed(c) && NoStrangers(c) && t.pod in c && Up(c) != {}
    ensures Chosen(c, t) == Demote
       <==> && c[t.pod].view.master
            && (c[t.pod].cfg.noPromote || !c[t.pod].healthy || !IsOldestPod(c, HealthyMasters(c), t.pod))
  {
    var m := c[t.pod];
    SeenIsTheCluster(c, t);
    DecisionFitsRole(m.cfg, Seen(c, t), Report(m, t.now), false);
    if m.view.master {
      DemotesIff(m.cfg, Seen(c, t), Report(m, t.now), false);
      if m.healthy { SeesOlderUnlessOldest(c, t); }
    }
  }

  lemma SeesOlderUnlessOldest(c: Members, t: Tick)
    requires WellFormed(c) && NoStrangers(c) && t.pod in HealthyMasters(c)
    ensures (exists k :: k in MasterKeys(Seen(c, t)) && Older(Seen(c, t)[k].id, c[t.pod].cfg.id))
       <==> !IsOldestPod(c, HealthyMasters(c), t.pod)
  {
    SeenIsTheCluster(c, t);
    SeenIsComplete(c, t);
    var p, masters := t.pod, HealthyMasters(c);
    OlderTrichotomy(c[p].cfg.id, c[p].cfg.id);
    forall q | q in masters && q != p ensures Older(c[q].cfg.id, c[p].cfg.id) <==> !Older(c[p].cfg.id, c[q].cfg.id) {
      OlderTrichotomy(c[q].cfg.id, c[p].cfg.id);
    }
    if !IsOldestPod(c, masters, p) {
      var q :| q in masters && q != p && !Older(c[p].cfg.id, c[q].cfg.id);
      assert q in MasterKeys(Seen(c, t)) && Older(Seen(c, t)[q].id, c[p].cfg.id);
    }
  }

  // ------------------------------------------------- the healthy masters over a run

  // The healthy masters after a sync of p, as a function of those before.
  ghost function NextMasters(c: Members, masters: set<string>, p: string): (next: set<string>)
    requires p in c && masters <= Up(c)
    ensures next <= Up(c)
  {
    if !c[p].healthy || c[p].cfg.standalone then masters
    else if masters == {} then (if c[p].cfg.Promotable() && IsOldestPod(c, Up(c), p) then {p} else {})
    else if p in masters && (c[p].cfg.noPromote || !IsOldestPod(c, masters, p)) then masters - {p}
    else masters
  }

  // p's own new role, in terms of the cluster.
  lemma SyncOwnRole(c: Members, t: Tick)
    requires WellFormed(c) && NoStrangers(c) && t.pod in c && c[t.pod].healthy
    ensures t.pod in HealthyMasters(Sync(c, t)) <==>
            || (c[t.pod].cfg.Promotable() && HealthyMasters(c) == {} && IsOldestPod(c, Up(c), t.pod))
            || (t.pod in HealthyMasters(c) && !c[t.pod].cfg.noPromote && IsOldestPod(c, HealthyMasters(c), t.pod))
  {
    assert t.pod in Up(c);
    SyncChangesOnlyItself(c, t);
    ChoosesPromoteIff(c, t);
    ChoosesDemoteIff(c, t);
  }

  lemma SyncLeavesOthers(c: Members, t: Tick)
    requires WellFormed(c) && NoStrangers(c) && t.pod in c
    ensures HealthyMasters(Sync(c, t)) - {t.pod} == HealthyMasters(c) - {t.pod}
    ensures !c[t.pod].healthy ==> t.pod !in HealthyMasters(Sync(c, t)) && t.pod !in HealthyMasters(c)
  {
    SyncChangesOnlyItself(c, t);
  }

  lemma SyncMovesMasters(c: Members, t: Tick)
    requires WellFormed(c) && NoStrangers(c) && t.pod in c
    ensures HealthyMasters(Sync(c, t)) == NextMasters(c, HealthyMasters(c), t.pod)
  {
    SyncLeavesOthers(c, t);
    if c[t.pod].healthy { SyncOwnRole(c, t); }
    MastersCombine(c, t.pod, HealthyMasters(c), HealthyMasters(Sync(c, t)));
  }

  lemma MastersCombine(c: Members, p: string, masters: set<string>, next: set<string>)
    requires p in c && masters <= Up(c) && (c[p].cfg.standalone ==> p !in masters)
    requires next - {p} == masters - {p}
    requires !c[p].healthy ==> p !in next && p !in masters
    requires c[p].healthy ==>
               (p in next <==>
                || (c[p].cfg.Promotable() && masters == {} && IsOldestPod(c, Up(c), p))
                || (p in masters && !c[p].cfg.noPromote && IsOldestPod(c, masters, p)))
    ensures next == NextMasters(c, masters, p)
  {
    assert next == (next - {p}) + (next * {p});
    assert masters == (masters - {p}) + (masters * {p});
  }

  function Pods(s: seq<Tick>): set<string> { set t | t in s :: t.pod }

  lemma PodsOfCons(s: seq<Tick>)
    requires s != []
    ensures Pods(s) == {s[0].pod} + Pods(s[1..])
  {
    assert s == [s[0]] + s[1..];
  }

  ghost function MastersAfter(c: Members, masters: set<string>, s: seq<Tick>): set<string>
    requires Scheduled(c, s) && masters <= Up(c)
    decreases |s|
  {
    if s == [] then masters else MastersAfter(c, NextMasters(c, masters, s[0].pod), s[1..])
  }

  lemma {:induction false} SameSetupSameMasters(c: Members, c': Members, masters: set<string>, s: seq<Tick>)
    requires SameSetup(c, c') && Scheduled(c, s) && masters <= Up(c)
    ensures masters <= Up(c') && Scheduled(c', s) && MastersAfter(c, masters, s) == MastersAfter(c', masters, s)
    decreases |s|
  {
    assert Up(c) == Up(c');
    if s == [] {
    } else {
      var p := s[0].pod;
      assert NextMasters(c, masters, p) == NextMasters(c', masters, p);
      SameSetupSameMasters(c, c', NextMasters(c, masters, p), s[1..]);
    }
  }

  // A whole run moves the healthy masters as the set function says.
  lemma {:induction false} RunMovesMasters(c: Members, s: seq<Tick>)
    requires WellFormed(c) && NoStrangers(c) && Scheduled(c, s)
    ensures SameSetup(c, Run(c, s)) && WellFormed(Run(c, s)) && NoStrangers(Run(c, s))
    ensures HealthyMasters(Run(c, s)) == MastersAfter(c, HealthyMasters(c), s)
    decreases |s|
  {
    if s == [] {
    } else {
      var c' := Sync(c, s[0]);
      SyncKeepsSetup(c, s[0]);
      SyncMovesMasters(c, s[0]);
      RunMovesMasters(c', s[1..]);
      SameSetupSameMasters(c, c', HealthyMasters(c'), s[1..]);
    }
  }

  lemma {:induction false} RunSplits(c: Members, s: seq<Tick>, t: seq<Tick>)
    requires Scheduled(c, s) && Scheduled(c, t)
    ensures Scheduled(c, s + t) && Run(c, s + t) == Run(Run(c, s), t)
    decreases |s|
  {
    if s == [] {
      assert s + t == t;
    } else {
      assert (s + t)[1..] == s[1..] + t;
      RunSplits(Sync(c, s[0]), s[1..], t);
    }
  }

  // ------------------------------------------------------------------ convergence

  // While the oldest master may stay, or does not sync, a run removes exactly the
  // others that sync.
  lemma {:induction false} OthersDrain(c: Members, masters: set<string>, t: string, s: seq<Tick>)
    requires Scheduled(c, s) && masters <= Up(c) && IsOldestPod(c, masters, t)
    requires forall q :: q in masters ==> !c[q].cfg.standalone
    requires !c[t].cfg.noPromote || t !in Pods(s)
    ensures MastersAfter(c, masters, s) == {t} + (masters - Pods(s))
    decreases |s|
  {
    if s == [] {
    } else {
      var p := s[0].pod;
      var next := NextMasters(c, masters, p);
      PodsOfCons(s);
      if p != t && p in masters && IsOldestPod(c, masters, p) { OldestPodUnique(c, masters, p, t); }
      assert next == masters - ({p} - {t});
      OthersDrain(c, next, t, s[1..]);
    }
  }

  // With no master, the oldest healthy pod takes the role at its first sync, if it may.
  lemma {:induction false} OldestTakesOver(c: Members, e: string, s: seq<Tick>)
    requires WellFormed(c) && Scheduled(c, s) && IsOldestPod(c, Up(c), e)
    ensures MastersAfter(c, {}, s) == if c[e].cfg.Promotable() && e in Pods(s) then {e} else {}
    decreases |s|
  {
    if s == [] {
    } else {
      var p := s[0].pod;
      if p != e && IsOldestPod(c, Up(c), p) { OldestPodUnique(c, Up(c), p, e); }
      PodsOfCons(s);
      if p == e && c[e].cfg.Promotable() {
        OthersDrain(c, {e}, e, s[1..]);
      } else {
        OldestTakesOver(c, e, s[1..]);
      }
    }
  }

  ghost predicate AllPromotable(c: Members) { forall q :: q in c ==> c[q].cfg.Promotable() }

  // The pod every schedule settles on.
  ghost predicate IsTarget(c: Members, t: string)
  {
    if HealthyMasters(c) == {} then IsOldestPod(c, Up(c), t) else IsOldestPod(c, HealthyMasters(c), t)
  }

  lemma ReachesTarget(c: Members, t: string, s: seq<Tick>)
    requires WellFormed(c) && NoStrangers(c) && IsTarget(c, t) && c[t].cfg.Promotable()
    requires Scheduled(c, s) && Up(c) <= Pods(s)
    ensures HealthyMasters(Run(c, s)) == {t}
  {
    var masters := HealthyMasters(c);
    RunMovesMasters(c, s);
    if masters == {} { OldestTakesOver(c, t, s); } else { OthersDrain(c, masters, t, s); }
  }

  lemma SoleMasterStays(c: Members, t: string, s: seq<Tick>)
    requires WellFormed(c) && NoStrangers(c) && Scheduled(c, s)
    requires HealthyMasters(c) == {t} && c[t].cfg.Promotable()
    ensures HealthyMasters(Run(c, s)) == {t}
  {
    RunMovesMasters(c, s);
    OthersDrain(c, {t}, t, s);
  }

  // From any roles, every schedule in which each healthy pod syncs ends with exactly
  // one healthy master, the oldest initial one or else the oldest pod, for good.
  lemma Converges(c: Members, t: string, s: seq<Tick>, more: seq<Tick>)
    requires WellFormed(c) && NoStrangers(c) && AllPromotable(c) && IsTarget(c, t)
    requires Scheduled(c, s) && Scheduled(c, more) && Up(c) <= Pods(s)
    ensures HealthyMasters(Run(c, s)) == {t}
    ensures HealthyMasters(Run(Run(c, s), more)) == {t}
  {
    ReachesTarget(c, t, s);
    RunMovesMasters(c, s);
    SoleMasterStays(Run(c, s), t, more);
  }

  // ------------------------------------------- exactly when every schedule converges

  // A round is a schedule in which every pod syncs.
  predicate Round(c: Members, s: seq<Tick>) { Scheduled(c, s) && c.Keys <= Pods(s) }

  ghost predicate ConvergesOnEverySchedule(c: Members)
  {
    forall s1, s2 :: Round(c, s1) && Round(c, s2) ==> |HealthyMasters(Run(Run(c, s1), s2))| == 1
  }

  // The oldest healthy master, or else the oldest healthy pod, may be master.
  ghost predicate SomeoneMayLead(c: Members)
  {
    || (exists t :: IsOldestPod(c, HealthyMasters(c), t) && c[t].cfg.Promotable())
    || (exists e :: IsOldestPod(c, Up(c), e) && c[e].cfg.Promotable())
  }

  // Whoever has synced and is still master is the oldest master and may stay.
  ghost predicate SyncedMastersSettled(c: Members, masters: set<string>, synced: set<string>)
    requires masters <= Up(c)
  {
    forall q :: q in masters && q in synced ==> IsOldestPod(c, masters, q) && c[q].cfg.Promotable()
  }

  lemma OldestOfFewer(c: Members, names: set<string>, fewer: set<string>, m: string)
    requires names <= c.Keys && IsOldestPod(c, names, m) && fewer <= names && m in fewer
    ensures IsOldestPod(c, fewer, m)
  {
  }

  lemma {:induction false} RoundSettles(c: Members, masters: set<string>, synced: set<string>, s: seq<Tick>)
    requires WellFormed(c) && Scheduled(c, s) && masters <= Up(c)
    requires forall q :: q in masters ==> !c[q].cfg.standalone
    requires SyncedMastersSettled(c, masters, synced)
    ensures MastersAfter(c, masters, s) <= Up(c)
    ensures SyncedMastersSettled(c, MastersAfter(c, masters, s), synced + Pods(s))
    decreases |s|
  {
    if s == [] {
      assert synced + Pods(s) == synced;
    } else {
      var p := s[0].pod;
      var next := NextMasters(c, masters, p);
      forall q | q in next && q in synced + {p} ensures IsOldestPod(c, next, q) && c[q].cfg.Promotable() {
        if masters != {} {
          assert next <= masters;
          OldestOfFewer(c, masters, next, q);
        }
      }
      RoundSettles(c, next, synced + {p}, s[1..]);
      PodsOfCons(s);
      assert synced + Pods(s) == synced + {p} + Pods(s[1..]);
    }
  }

  // After one round there is no healthy master, or exactly one and it may stay.
  lemma RoundLeavesAtMostOne(c: Members, s: seq<Tick>)
    requires WellFormed(c) && NoStrangers(c) && Round(c, s)
    ensures var masters := HealthyMasters(Run(c, s));
            masters == {} || exists t :: masters == {t} && t in c && c[t].cfg.Promotable()
  {
    RunMovesMasters(c, s);
    RoundSettles(c, HealthyMasters(c), {}, s);
    var masters := HealthyMasters(Run(c, s));
    assert masters == MastersAfter(c, HealthyMasters(c), s);
    if masters != {} {
      var t :| t in masters;
      assert IsOldestPod(c, masters, t);
      forall q | q in masters ensures q == t {
        assert IsOldestPod(c, masters, q);
        OldestPodUnique(c, masters, q, t);
      }
      assert masters == {t};
    }
  }

  // If the oldest healthy pod may lead, two rounds leave exactly one master.
  lemma TwoRoundsLeaveOne(c: Members, e: string, s1: seq<Tick>, s2: seq<Tick>) returns (t: string)
    requires WellFormed(c) && NoStrangers(c) && Round(c, s1) && Round(c, s2)
    requires IsOldestPod(c, Up(c), e) && c[e].cfg.Promotable()
    ensures HealthyMasters(Run(Run(c, s1), s2)) == {t}
  {
    var c' := Run(c, s1);
    RunMovesMasters(c, s1);
    assert Up(c') == Up(c);
    RoundLeavesAtMostOne(c, s1);
    if HealthyMasters(c') == {} {
      t := e;
      ReachesTarget(c', t, s2);
    } else {
      t :| HealthyMasters(c') == {t} && t in c && c[t].cfg.Promotable();
      SoleMasterStays(c', t, s2);
    }
  }

  // If the oldest healthy master may lead, it alone is left after the first round.
  lemma OldestMasterStays(c: Members, t: string, s1: seq<Tick>, s2: seq<Tick>)
    requires WellFormed(c) && NoStrangers(c) && Round(c, s1) && Round(c, s2)
    requires IsOldestPod(c, HealthyMasters(c), t) && c[t].cfg.Promotable()
    ensures HealthyMasters(Run(Run(c, s1), s2)) == {t}
  {
    ReachesTarget(c, t, s1);
    RunMovesMasters(c, s1);
    SoleMasterStays(Run(c, s1), t, s2);
  }

  lemma ConvergesIfSomeoneMayLead(c: Members, s1: seq<Tick>, s2: seq<Tick>) returns (t: string)
    requires WellFormed(c) && NoStrangers(c) && SomeoneMayLead(c) && Round(c, s1) && Round(c, s2)
    ensures HealthyMasters(Run(Run(c, s1), s2)) == {t}
  {
    if x :| IsOldestPod(c, HealthyMasters(c), x) && c[x].cfg.Promotable() {
      t := x;
      OldestMasterStays(c, t, s1, s2);
    } else {
      var e :| IsOldestPod(c, Up(c), e) && c[e].cfg.Promotable();
      t := TwoRoundsLeaveOne(c, e, s1, s2);
    }
  }

  lemma {:induction false} ListTicks(names: set<string>) returns (s: seq<Tick>)
    ensures Pods(s) == names
    decreases |names|
  {
    s := [];
    if names == {} {
    } else {
      var p :| p in names;
      var rest := ListTicks(names - {p});
      s := [Tick(p, 0, false)] + rest;
      assert Pods(s) == {p} + Pods(rest);
    }
  }

  lemma PodsOfConcat(s: seq<Tick>, s': seq<Tick>)
    ensures Pods(s + s') == Pods(s) + Pods(s')
  {
    forall t | t in s || t in s' ensures t in s + s' {}
  }

  lemma TicksScheduled(c: Members, s: seq<Tick>)
    requires Pods(s) <= c.Keys
    ensures Scheduled(c, s)
  {
    forall i | 0 <= i < |s| ensures s[i].pod in c { assert s[i] in s && s[i].pod in Pods(s); }
  }

  // If nobody may lead, some round empties the cluster of masters ...
  lemma SomeRoundEmpties(c: Members) returns (s: seq<Tick>)
    requires WellFormed(c) && NoStrangers(c) && !SomeoneMayLead(c)
    ensures Round(c, s) && HealthyMasters(Run(c, s)) == {}
  {
    var masters := HealthyMasters(c);
    if masters == {} {
      s := ListTicks(c.Keys);
      TicksScheduled(c, s);
      StaysEmpty(c, s);
    } else {
      var t := OldestPodExists(c, masters);
      var others := ListTicks(c.Keys - {t});
      var last := Tick(t, 0, false);
      s := others + [last];
      PodsOfConcat(others, [last]);
      TicksScheduled(c, s);
      TicksScheduled(c, others);
      LastMasterQuits(c, others, last);
    }
  }

  lemma RunOfOne(c: Members, t: Tick)
    requires t.pod in c
    ensures Scheduled(c, [t]) && Run(c, [t]) == Sync(c, t)
  {
    assert [t][1..] == [] && Run(c, [t]) == Run(Sync(c, t), []);
  }

  lemma SoleNoPromoteQuits(c: Members, last: Tick)
    requires WellFormed(c) && NoStrangers(c) && HealthyMasters(c) == {last.pod} && c[last.pod].cfg.noPromote
    ensures HealthyMasters(Sync(c, last)) == {}
  {
    SyncMovesMasters(c, last);
  }

  lemma LastMasterQuits(c: Members, others: seq<Tick>, last: Tick)
    requires WellFormed(c) && NoStrangers(c) && Scheduled(c, others) && Pods(others) == c.Keys - {last.pod}
    requires IsOldestPod(c, HealthyMasters(c), last.pod) && c[last.pod].cfg.noPromote
    ensures Scheduled(c, others + [last]) && HealthyMasters(Run(c, others + [last])) == {}
  {
    var c' := Run(c, others);
    RunSplits(c, others, [last]);
    RunOfOne(c', last);
    RunMovesMasters(c, others);
    OthersDrain(c, HealthyMasters(c), last.pod, others);
    SoleNoPromoteQuits(c', last);
  }

  // ... and no schedule ever brings one back.
  lemma StaysEmpty(c: Members, s: seq<Tick>)
    requires WellFormed(c) && NoStrangers(c) && HealthyMasters(c) == {} && Scheduled(c, s)
    requires forall e :: IsOldestPod(c, Up(c), e) ==> !c[e].cfg.Promotable()
    ensures HealthyMasters(Run(c, s)) == {}
  {
    RunMovesMasters(c, s);
    if Up(c) != {} {
      var e := OldestPodExists(c, Up(c));
      OldestTakesOver(c, e, s);
    }
  }

  lemma RunKeepsUp(c: Members, s: seq<Tick>)
    requires WellFormed(c) && NoStrangers(c) && Scheduled(c, s)
    ensures WellFormed(Run(c, s)) && NoStrangers(Run(c, s)) && SameSetup(c, Run(c, s)) && Up(Run(c, s)) == Up(c)
  {
    RunMovesMasters(c, s);
  }

  lemma StaysEmptyAgain(c: Members, c': Members, s: seq<Tick>)
    requires WellFormed(c') && NoStrangers(c') && SameSetup(c, c') && HealthyMasters(c') == {} && Scheduled(c', s)
    requires !SomeoneMayLead(c)
    ensures HealthyMasters(Run(c', s)) == {}
  {
    assert Up(c') == Up(c);
    forall e | IsOldestPod(c', Up(c'), e) ensures !c'[e].cfg.Promotable() { assert IsOldestPod(c, Up(c), e); }
    StaysEmpty(c', s);
  }

  // "Exactly one master" holds on every schedule if and only if the oldest healthy
  // master may be one or the oldest healthy pod may.
  lemma ConvergesIff(c: Members)
    requires WellFormed(c) && NoStrangers(c)
    ensures ConvergesOnEverySchedule(c) <==> SomeoneMayLead(c)
  {
    if SomeoneMayLead(c) {
      forall s1, s2 | Round(c, s1) && Round(c, s2) ensures |HealthyMasters(Run(Run(c, s1), s2))| == 1 {
        var t := ConvergesIfSomeoneMayLead(c, s1, s2);
      }
    } else {
      var s := SomeRoundEmpties(c);
      RunKeepsUp(c, s);
      var c' := Run(c, s);
      StaysEmptyAgain(c, c', s);
      assert Round(c, s) && |HealthyMasters(Run(c', s))| == 0;
    }
  }
}
