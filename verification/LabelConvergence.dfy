/** A consequence of convergence: labels end up on the one master. */
module LabelConvergence {
  import opened PodOrder
  import opened Reconciliation
  import opened Convergence

  function AllMasters(c: Members): set<string> { set q | q in c && c[q].view.master }

  function Labelled(c: Members): set<string> { set q | q in c && c[q].view.labelled }

  lemma UnhealthyStep(c: Members, t: Tick, q: string)
    requires WellFormed(c) && NoStrangers(c) && t.pod in c && q in c && !c[q].healthy && Up(c) != {}
    ensures Sync(c, t)[q].view.master ==> c[q].view.master && q != t.pod
  {
    SyncChangesOnlyItself(c, t);
    ChoosesPromoteIff(c, t);
    ChoosesDemoteIff(c, t);
  }

  // An unhealthy pod never gains the role and loses it at its first sync.
  lemma {:induction false} UnhealthyLosesRole(c: Members, s: seq<Tick>, q: string)
    requires WellFormed(c) && NoStrangers(c) && Scheduled(c, s) && q in c && !c[q].healthy && Up(c) != {}
    ensures Run(c, s)[q].view.master ==> c[q].view.master && q !in Pods(s)
    decreases |s|
  {
    if s == [] {
    } else {
      var c' := Sync(c, s[0]);
      SyncKeepsSetup(c, s[0]);
      UnhealthyStep(c, s[0], q);
      assert Up(c') == Up(c);
      UnhealthyLosesRole(c', s[1..], q);
      PodsOfCons(s);
    }
  }

  lemma LabelStep(c: Members, t: Tick)
    requires WellFormed(c) && NoStrangers(c) && t.pod in c && Labelled(c) <= AllMasters(c)
    ensures Labelled(Sync(c, t)) <= AllMasters(Sync(c, t))
  {
    var m := c[t.pod];
    SyncChangesOnlyItself(c, t);
    SeenIsOwnView(c, t);
    DecisionFitsRole(m.cfg, Seen(c, t), Report(m, t.now), false);
    forall q | q in Labelled(Sync(c, t)) ensures q in AllMasters(Sync(c, t)) {
      assert q in Labelled(c) ==> q in AllMasters(c);
    }
  }

  lemma {:induction false} LabelsFollowMasters(c: Members, s: seq<Tick>)
    requires WellFormed(c) && NoStrangers(c) && Scheduled(c, s) && Labelled(c) <= AllMasters(c)
    ensures Labelled(Run(c, s)) <= AllMasters(Run(c, s))
    decreases |s|
  {
    if s == [] {
    } else {
      SyncKeepsSetup(c, s[0]);
      LabelStep(c, s[0]);
      LabelsFollowMasters(Sync(c, s[0]), s[1..]);
    }
  }

  // A sole master labels itself when it syncs, and keeps the label.
  lemma SoleMasterLabelsItself(c: Members, t: Tick)
    requires WellFormed(c) && NoStrangers(c) && t.pod in c && HealthyMasters(c) == {t.pod}
    requires c[t.pod].cfg.Promotable()
    ensures Sync(c, t)[t.pod].view == Visible(true, true)
  {
    var m := c[t.pod];
    SeenIsTheCluster(c, t);
    SeenIsComplete(c, t);
    SyncChangesOnlyItself(c, t);
    assert t.pod in MasterKeys(Seen(c, t)) && t.pod in HealthyKeys(Seen(c, t));
    ElectedIsOldest(Seen(c, t), {t.pod}, t.pod);
  }

  lemma SoleMasterStep(c: Members, t: string, tick: Tick)
    requires WellFormed(c) && NoStrangers(c) && tick.pod in c && HealthyMasters(c) == {t} && c[t].cfg.Promotable()
    ensures HealthyMasters(Sync(c, tick)) == {t}
    ensures c[t].view.labelled || tick.pod == t ==> Sync(c, tick)[t].view.labelled
  {
    SyncMovesMasters(c, tick);
    assert IsOldestPod(c, {t}, t);
    if tick.pod == t { SoleMasterLabelsItself(c, tick); }
  }

  lemma {:induction false} SoleMasterEndsLabelled(c: Members, t: string, s: seq<Tick>)
    requires WellFormed(c) && NoStrangers(c) && Scheduled(c, s) && HealthyMasters(c) == {t} && c[t].cfg.Promotable()
    requires c[t].view.labelled || t in Pods(s)
    ensures Run(c, s)[t].view.labelled
    decreases |s|
  {
    if s == [] {
    } else {
      SyncKeepsSetup(c, s[0]);
      SoleMasterStep(c, t, s[0]);
      PodsOfCons(s);
      SoleMasterEndsLabelled(Sync(c, s[0]), t, s[1..]);
    }
  }

  lemma RoundLeavesOneMaster(c: Members, t: string, s: seq<Tick>)
    requires WellFormed(c) && NoStrangers(c) && IsTarget(c, t) && c[t].cfg.Promotable() && Round(c, s)
    ensures AllMasters(Run(c, s)) == {t}
  {
    var c' := Run(c, s);
    ReachesTarget(c, t, s);
    RunMovesMasters(c, s);
    assert t in HealthyMasters(c') && t in Up(c);
    forall q | q in AllMasters(c') ensures q == t {
      assert q in Pods(s);
      if c[q].healthy { assert q in HealthyMasters(c'); } else { UnhealthyLosesRole(c, s, q); }
    }
  }

  lemma RoundLabelsSoleMaster(c: Members, t: string, s: seq<Tick>)
    requires WellFormed(c) && NoStrangers(c) && HealthyMasters(c) == {t} && c[t].cfg.Promotable() && Round(c, s)
    requires Labelled(c) <= AllMasters(c)
    ensures AllMasters(Run(c, s)) == {t} && Labelled(Run(c, s)) == {t}
  {
    assert IsOldestPod(c, {t}, t);
    RoundLeavesOneMaster(c, t, s);
    LabelsFollowMasters(c, s);
    SoleMasterEndsLabelled(c, t, s);
    assert t in Labelled(Run(c, s));
  }

  // From "labelled implies master", two rounds leave exactly the surviving master labelled.
  lemma LabelsConverge(c: Members, t: string, s1: seq<Tick>, s2: seq<Tick>)
    requires WellFormed(c) && NoStrangers(c) && IsTarget(c, t) && c[t].cfg.Promotable()
    requires Labelled(c) <= AllMasters(c) && Round(c, s1) && Round(c, s2)
    ensures AllMasters(Run(Run(c, s1), s2)) == {t}
    ensures Labelled(Run(Run(c, s1), s2)) == {t}
  {
    RunMovesMasters(c, s1);
    ReachesTarget(c, t, s1);
    LabelsFollowMasters(c, s1);
    RoundLabelsSoleMaster(Run(c, s1), t, s2);
  }
}
