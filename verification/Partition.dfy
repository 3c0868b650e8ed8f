/** A cluster split in two and joined again: each side goes on with what it remembers
    of the other, and the joined cluster settles on the older side's master. */
module Partition {
  import opened PodOrder
  import opened Reconciliation
  import opened PeerCache
  import opened Convergence
  import opened LabelConvergence
  import opened Failover

  // ---------------------------------------------------------------------- healing

  lemma JoinedGroups(a: Members, b: Members)
    requires a.Keys !! b.Keys
    ensures HealthyMasters(a + b) == HealthyMasters(a) + HealthyMasters(b)
    ensures Up(a + b) == Up(a) + Up(b)
  {
  }

  // In the end w is the only healthy master, and it is one at every point on the way.
  ghost predicate SettlesOn(c: Members, w: string, s: seq<Tick>)
    requires Scheduled(c, s)
  {
    && HealthyMasters(Run(c, s)) == {w}
    && forall i :: 0 <= i <= |s| ==> w in HealthyMasters(Run(c, s[..i]))
  }

  lemma OldestMasterHolds(c: Members, w: string, s: seq<Tick>)
    requires WellFormed(c) && NoStrangers(c) && IsOldestPod(c, HealthyMasters(c), w) && c[w].cfg.Promotable()
    requires Scheduled(c, s)
    ensures w in HealthyMasters(Run(c, s))
  {
    RunMovesMasters(c, s);
    OthersDrain(c, HealthyMasters(c), w, s);
  }

  lemma OldestMasterWins(c: Members, w: string, s: seq<Tick>)
    requires WellFormed(c) && NoStrangers(c) && IsOldestPod(c, HealthyMasters(c), w) && c[w].cfg.Promotable()
    requires Scheduled(c, s) && Up(c) <= Pods(s)
    ensures SettlesOn(c, w, s)
  {
    ReachesTarget(c, w, s);
    forall i | 0 <= i <= |s| ensures w in HealthyMasters(Run(c, s[..i])) {
      OldestMasterHolds(c, w, s[..i]);
    }
  }

  // Two groups, each converged on its own master, reconnect, with whatever their caches
  // still hold of each other: every schedule in which the healthy pods sync ends with
  // the older master alone, and that master holds the role at every point on the way,
  // so the joined cluster is never masterless.
  lemma PartitionHeals(a: Members, b: Members, ta: string, tb: string, s: seq<Tick>)
    requires a.Keys !! b.Keys && NoStrangers(a + b) && WellFormed(a + b)
    requires HealthyMasters(a) == {ta} && HealthyMasters(b) == {tb}
    requires a[ta].cfg.Promotable() && b[tb].cfg.Promotable()
    requires Scheduled(a + b, s) && Up(a + b) <= Pods(s)
    ensures SettlesOn(a + b, if Older(a[ta].cfg.id, b[tb].cfg.id) then ta else tb, s)
  {
    var c := a + b;
    JoinedGroups(a, b);
    assert ta in a && tb in b && c[ta] == a[ta] && c[tb] == b[tb];
    assert c[ta].cfg.id.name == ta && c[tb].cfg.id.name == tb;
    OlderTrichotomy(c[ta].cfg.id, c[tb].cfg.id);
    OldestMasterWins(c, if Older(a[ta].cfg.id, b[tb].cfg.id) then ta else tb, s);
  }

  lemma SameSetupIsWellFormed(c: Members, c': Members)
    requires WellFormed(c) && SameSetup(c, c')
    requires forall q :: q in c' && c'[q].cfg.standalone ==> !c'[q].view.master
    ensures WellFormed(c') && Up(c') == Up(c)
  {
  }

  lemma JoinSameSetup(a: Members, b: Members, a': Members, b': Members)
    requires SameSetup(a, a') && SameSetup(b, b')
    ensures SameSetup(a + b, a' + b')
  {
    forall q | q in a + b ensures (a + b)[q].cfg == (a' + b')[q].cfg && (a + b)[q].healthy == (a' + b')[q].healthy {
      if q in b { assert b[q].cfg == b'[q].cfg; } else { assert a[q].cfg == a'[q].cfg; }
    }
  }

  lemma JoinedWitnesses(a: Members, b: Members)
    requires WellFormed(a) && WellFormed(b)
    ensures forall q :: q in a + b && (a + b)[q].cfg.standalone ==> !(a + b)[q].view.master
  {
  }

  lemma JoinKeepsSetup(a: Members, b: Members, a': Members, b': Members)
    requires WellFormed(a + b) && SameSetup(a, a') && SameSetup(b, b') && WellFormed(a') && WellFormed(b')
    ensures WellFormed(a' + b') && SameSetup(a + b, a' + b') && Up(a' + b') == Up(a + b)
  {
    JoinSameSetup(a, b, a', b');
    JoinedWitnesses(a', b');
    SameSetupIsWellFormed(a + b, a' + b');
  }

  // ------------------------------------------------------ the side that keeps the master

  // A master remembers no other healthy master that it would give way to.
  ghost predicate YoungerMasters(n: Member)
  {
    forall k :: k in MasterKeys(n.cache) && k != n.cfg.id.name ==> Older(n.cfg.id, n.cache[k].id)
  }

  ghost predicate MastersUnmoved(c: Members) { forall p :: p in c && c[p].view.master ==> YoungerMasters(c[p]) }

  // A pod that is master after its sync saw no master it gives way to.
  lemma SyncUnmoved(c: Members, t: Tick)
    requires WellFormed(c) && NoImpostors(c) && t.pod in c && Sync(c, t)[t.pod].view.master
    ensures YoungerMasters(Sync(c, t)[t.pod])
  {
    var p, seen, local := t.pod, Seen(c, t), Report(c[t.pod], t.now);
    SeenIsOwnView(c, t);
    SyncChangesOnlyItself(c, t);
    PromotesIff(c[p].cfg, seen, local, false);
    if c[p].view.master && MasterKeys(seen) != {} {
      assert HealthyKeys(seen) != {};
      DemotesIff(c[p].cfg, seen, local, false);
      forall k | k in MasterKeys(seen) && k != p ensures Older(c[p].cfg.id, seen[k].id) {
        assert seen[k].id.uid != c[p].cfg.id.uid;
        OlderTrichotomy(c[p].cfg.id, seen[k].id);
      }
    }
  }

  lemma MastersStayUnmoved(c: Members, t: Tick)
    requires WellFormed(c) && NoImpostors(c) && MastersUnmoved(c) && t.pod in c
    ensures MastersUnmoved(Sync(c, t))
  {
    var c' := Sync(c, t);
    forall p | p in c' && c'[p].view.master ensures YoungerMasters(c'[p]) {
      if p == t.pod { SyncUnmoved(c, t); } else { assert c'[p] == c[p]; }
    }
  }

  lemma {:induction false} RunUnmoved(c: Members, s: seq<Tick>, now: int)
    requires WellFormed(c) && Scheduled(c, s) && MemoryUpTo(c, now) && MastersUnmoved(c)
    requires forall i :: 0 <= i < |s| ==> s[i].now <= now
    ensures MastersUnmoved(Run(c, s))
    decreases |s|
  {
    if s == [] {
    } else {
      NoImpostorsWithin(c, now);
      SyncKeepsSetup(c, s[0]);
      SyncRemembers(c, s[0], now);
      MastersStayUnmoved(c, s[0]);
      RunUnmoved(Sync(c, s[0]), s[1..], now);
    }
  }

  lemma NoImpostorsWithin(c: Members, now: int)
    requires MemoryUpTo(c, now)
    ensures NoImpostors(c)
  {
    forall p | p in c ensures NoImpostorIn(c, c[p].cache) { assert TrueMemory(c, c[p].cache, now); }
  }

  // m is the only master of its side and remembers no master it gives way to.
  ghost predicate KeepsLeading(c: Members, m: string)
  {
    && WellFormed(c) && NoImpostors(c)
    && AllMasters(c) == {m} && c[m].healthy && c[m].cfg.Promotable() && YoungerMasters(c[m])
  }

  lemma KeeperStays(c: Members, m: string, t: Tick)
    requires KeepsLeading(c, m) && t.pod == m
    ensures Sync(c, t)[m].view.master
  {
    assert m in AllMasters(c);
    var seen, local := Seen(c, t), Report(c[m], t.now);
    SeenIsOwnView(c, t);
    SeenIsComplete(c, t);
    SyncChangesOnlyItself(c, t);
    assert m in HealthyKeys(seen);
    DemotesIff(c[m].cfg, seen, local, false);
    forall k | k in MasterKeys(seen) ensures !Older(seen[k].id, c[m].cfg.id) {
      OlderTrichotomy(seen[k].id, c[m].cfg.id);
      if k in c { assert k in AllMasters(c); } else { assert k in MasterKeys(c[m].cache); }
    }
  }

  lemma KeepersPeerWaits(c: Members, m: string, t: Tick)
    requires KeepsLeading(c, m) && t.pod in c && t.pod != m
    ensures !Sync(c, t)[t.pod].view.master
  {
    assert m in AllMasters(c) && t.pod !in AllMasters(c);
    SeenIsOwnView(c, t);
    SeenIsComplete(c, t);
    SyncChangesOnlyItself(c, t);
    assert m in MasterKeys(Seen(c, t));
    PromotesIff(c[t.pod].cfg, Seen(c, t), Report(c[t.pod], t.now), false);
  }

  lemma KeeperStep(c: Members, m: string, t: Tick)
    requires KeepsLeading(c, m) && t.pod in c
    ensures KeepsLeading(Sync(c, t), m)
  {
    var c' := Sync(c, t);
    assert m in AllMasters(c);
    SyncKeepsSetup(c, t);
    SyncChangesOnlyItself(c, t);
    ImpostorsStayOut(c, t);
    if t.pod == m {
      KeeperStays(c, m, t);
      SyncUnmoved(c, t);
    } else {
      KeepersPeerWaits(c, m, t);
    }
    forall q | q in c' ensures q in AllMasters(c') <==> q == m {
      assert q != t.pod ==> (q in AllMasters(c') <==> q in AllMasters(c));
    }
  }

  lemma ImpostorsStayOut(c: Members, t: Tick)
    requires WellFormed(c) && NoImpostors(c) && t.pod in c
    ensures NoImpostors(Sync(c, t))
  {
    SeenIsComplete(c, t);
  }

  lemma {:induction false} KeeperLeadsThroughout(c: Members, m: string, s: seq<Tick>)
    requires KeepsLeading(c, m) && Scheduled(c, s)
    ensures KeepsLeading(Run(c, s), m) && SameSetup(c, Run(c, s))
    decreases |s|
  {
    if s == [] {
    } else {
      KeeperStep(c, m, s[0]);
      SyncKeepsSetup(c, s[0]);
      KeeperLeadsThroughout(Sync(c, s[0]), m, s[1..]);
    }
  }

  lemma KeeperAtSplit(c: Members, away: set<string>, m: string, split: int)
    requires WellFormed(c) && MemoryUpTo(c, split) && MastersUnmoved(c)
    requires AllMasters(c) == {m} && m !in away && c[m].healthy && c[m].cfg.Promotable()
    ensures KeepsLeading(c - away, m)
  {
    var side := c - away;
    assert m in AllMasters(c);
    forall p | p in side ensures NoImpostorIn(side, side[p].cache) { assert TrueMemory(c, c[p].cache, split); }
    forall q | q in side ensures q in AllMasters(side) <==> q == m {
      assert q in AllMasters(side) <==> q in AllMasters(c);
    }
  }

  // -------------------------------------------------------------------- whole story

  ghost predicate MemoryWithin(c: Members, all: set<string>) { forall q :: q in c ==> c[q].cache.Keys <= all }

  lemma {:induction false} RunStaysWithin(c: Members, s: seq<Tick>, all: set<string>)
    requires WellFormed(c) && Scheduled(c, s) && c.Keys <= all && MemoryWithin(c, all)
    ensures MemoryWithin(Run(c, s), all)
    decreases |s|
  {
    if s == [] {
    } else {
      SeenIsComplete(c, s[0]);
      SyncKeepsSetup(c, s[0]);
      RunStaysWithin(Sync(c, s[0]), s[1..], all);
    }
  }

  function Near(c: Members, away: set<string>): Members { c - away }

  function Far(c: Members, away: set<string>): Members { c - (c.Keys - away) }

  lemma SideMemory(c: Members, lost: set<string>, s: seq<Tick>, now: int)
    requires WellFormed(c) && MemoryUpTo(c, now) && Scheduled(c - lost, s)
    ensures MemoryWithin(Run(c - lost, s), c.Keys)
  {
    var side := c - lost;
    forall q | q in side ensures side[q].cache.Keys <= c.Keys { assert TrueMemory(c, c[q].cache, now); }
    RunStaysWithin(side, s, c.Keys);
  }

  // A converged cluster at the moment it splits: m leads and stays near, e is the
  // oldest healthy pod on the far side.
  ghost predicate Splits(c: Members, away: set<string>, m: string, e: string, split: int)
  {
    && WellFormed(c) && MemoryUpTo(c, split) && MastersUnmoved(c)
    && AllMasters(c) == {m} && m in c && m !in away && c[m].healthy && c[m].cfg.Promotable()
    && IsOldestPod(Far(c, away), Up(Far(c, away)), e)
  }

  lemma NearSideLeads(c: Members, away: set<string>, m: string, e: string, split: int, near: seq<Tick>)
    requires Splits(c, away, m, e, split) && Scheduled(Near(c, away), near)
    ensures KeepsLeading(Run(Near(c, away), near), m) && SameSetup(Near(c, away), Run(Near(c, away), near))
    ensures MemoryWithin(Run(Near(c, away), near), c.Keys)
  {
    KeeperAtSplit(c, away, m, split);
    KeeperLeadsThroughout(c - away, m, near);
    SideMemory(c, away, near, split);
  }

  lemma FarSideFailsOver(c: Members, away: set<string>, m: string, e: string, split: int, far: seq<Tick>)
    requires Splits(c, away, m, e, split) && Scheduled(Far(c, away), far)
    ensures var side := Run(Far(c, away), far);
            && WellFormed(side) && SameSetup(Far(c, away), side) && MemoryWithin(side, c.Keys)
            && AllMasters(side) <= {e} && (e in AllMasters(side) ==> c[e].cfg.Promotable())
            && (c[e].cfg.Promotable() && WaitedFor(far, e, split) ==> AllMasters(side) == {e})
  {
    SurvivorsFailOver(c, c.Keys - away, e, split, far);
    SideMemory(c, c.Keys - away, far, split);
  }

  lemma SidesRejoin(c: Members, away: set<string>, near: Members, far: Members)
    requires WellFormed(c) && SameSetup(Near(c, away), near) && SameSetup(Far(c, away), far)
    requires WellFormed(near) && WellFormed(far) && MemoryWithin(near, c.Keys) && MemoryWithin(far, c.Keys)
    ensures near.Keys !! far.Keys && (near + far).Keys == c.Keys
    ensures WellFormed(near + far) && NoStrangers(near + far) && SameSetup(c, near + far) && Up(near + far) == Up(c)
  {
    assert Near(c, away) + Far(c, away) == c;
    JoinKeepsSetup(Near(c, away), Far(c, away), near, far);
  }

  // The master the joined cluster settles on.
  ghost function Winner(c: Members, far: Members, m: string, e: string): string
    requires m in c && e in c
  {
    if e in AllMasters(far) && Older(c[e].cfg.id, c[m].cfg.id) then e else m
  }

  // Two sides about to reconnect: m leads one, at most e leads the other.
  ghost predicate Reconnecting(c: Members, near: Members, far: Members, m: string, e: string)
  {
    && near.Keys !! far.Keys && SameSetup(c, near + far) && WellFormed(near + far) && NoStrangers(near + far)
    && m in near && e in far && AllMasters(near) == {m} && AllMasters(far) <= {e}
    && c[m].healthy && c[e].healthy && c[m].cfg.Promotable() && (e in AllMasters(far) ==> c[e].cfg.Promotable())
  }

  lemma MastersOfBoth(c: Members, near: Members, far: Members, m: string, e: string)
    requires Reconnecting(c, near, far, m, e)
    ensures HealthyMasters(near + far) == {m} + AllMasters(far)
  {
    var joined := near + far;
    JoinedGroups(near, far);
    assert joined[m] == near[m] && joined[e] == far[e];
    assert m in AllMasters(near);
    assert HealthyMasters(near) == {m} && HealthyMasters(far) == AllMasters(far);
  }

  lemma OlderOfTwo(c: Members, masters: set<string>, m: string, e: string)
    requires WellFormed(c) && m in c && e in c && m != e && {m} <= masters <= {m, e}
    ensures IsOldestPod(c, masters, if e in masters && Older(c[e].cfg.id, c[m].cfg.id) then e else m)
  {
    assert c[m].cfg.id.name == m && c[e].cfg.id.name == e;
    OlderTrichotomy(c[e].cfg.id, c[m].cfg.id);
  }

  lemma WinnerIsOldest(c: Members, near: Members, far: Members, m: string, e: string)
    requires Reconnecting(c, near, far, m, e)
    ensures IsOldestPod(near + far, HealthyMasters(near + far), Winner(c, far, m, e))
    ensures (near + far)[Winner(c, far, m, e)].cfg.Promotable()
  {
    MastersOfBoth(c, near, far, m, e);
    OlderOfTwo(near + far, HealthyMasters(near + far), m, e);
    assert e in HealthyMasters(near + far) <==> e in AllMasters(far);
  }

  lemma Reconnects(c: Members, near: Members, far: Members, m: string, e: string, s: seq<Tick>)
    requires Reconnecting(c, near, far, m, e) && Scheduled(c, s) && Up(c) <= Pods(s)
    ensures Scheduled(near + far, s) && SettlesOn(near + far, Winner(c, far, m, e), s)
  {
    WinnerIsOldest(c, near, far, m, e);
    assert Up(near + far) == Up(c);
    OldestMasterWins(near + far, Winner(c, far, m, e), s);
  }

  lemma SidesAtReconnection(c: Members, away: set<string>, m: string, e: string, split: int,
                            near: seq<Tick>, far: seq<Tick>)
    requires Splits(c, away, m, e, split) && Scheduled(Near(c, away), near) && Scheduled(Far(c, away), far)
    ensures Reconnecting(c, Run(Near(c, away), near), Run(Far(c, away), far), m, e)
  {
    NearSideLeads(c, away, m, e, split, near);
    FarSideFailsOver(c, away, m, e, split, far);
    SidesRejoin(c, away, Run(Near(c, away), near), Run(Far(c, away), far));
  }

  // What becomes of a split cluster, whatever schedules the two sides run. The side with
  // the master keeps it; on the other side only the oldest healthy pod ever leads, and it
  // does once it has synced more than 60 seconds after the split and may lead. From the
  // reconnection on, the older of the masters there are holds the role at every point,
  // and is alone in the end.
  ghost predicate SplitHeals(c: Members, away: set<string>, m: string, e: string, split: int,
                             near: seq<Tick>, far: seq<Tick>, s: seq<Tick>)
    requires Scheduled(Near(c, away), near) && Scheduled(Far(c, away), far) && m in c && e in c
  {
    var a, b := Run(Near(c, away), near), Run(Far(c, away), far);
    && AllMasters(a) == {m} && AllMasters(b) <= {e}
    && (c[e].cfg.Promotable() && WaitedFor(far, e, split) ==> AllMasters(b) == {e})
    && Scheduled(a + b, s) && SettlesOn(a + b, Winner(c, b, m, e), s)
  }

  lemma SplitThenHealed(c: Members, away: set<string>, m: string, e: string, split: int,
                        near: seq<Tick>, far: seq<Tick>, s: seq<Tick>)
    requires Splits(c, away, m, e, split) && Scheduled(Near(c, away), near) && Scheduled(Far(c, away), far)
    requires Scheduled(c, s) && Up(c) <= Pods(s)
    ensures SplitHeals(c, away, m, e, split, near, far, s)
  {
    SidesAtReconnection(c, away, m, e, split, near, far);
    FarSideFailsOver(c, away, m, e, split, far);
    Reconnects(c, Run(Near(c, away), near), Run(Far(c, away), far), m, e, s);
  }

  // What leads up to the split: any run that leaves m the only master.
  ghost predicate LeadsUp(start: Members, before: seq<Tick>, away: set<string>, m: string, e: string, split: int)
  {
    && WellFormed(start) && MemoryUpTo(start, split) && MastersUnmoved(start) && Scheduled(start, before)
    && (forall k :: 0 <= k < |before| ==> before[k].now <= split)
    && AllMasters(Run(start, before)) == {m} && m in start && m !in away
    && start[m].healthy && start[m].cfg.Promotable()
    && IsOldestPod(Far(start, away), Up(Far(start, away)), e)
  }

  lemma RunUpToSplit(start: Members, before: seq<Tick>, away: set<string>, m: string, e: string, split: int)
    requires LeadsUp(start, before, away, m, e, split)
    ensures Splits(Run(start, before), away, m, e, split)
    ensures Up(Run(start, before)) == Up(start)
  {
    RunRemembers(start, before, split);
    RunUnmoved(start, before, split);
    SurvivorsKeepSetup(start, Run(start, before), start.Keys - away, e);
  }

  // The whole story: a cluster runs, splits, runs on apart, and heals.
  lemma PartitionedThenHealed(start: Members, before: seq<Tick>, away: set<string>, m: string, e: string, split: int,
                              near: seq<Tick>, far: seq<Tick>, s: seq<Tick>)
    requires LeadsUp(start, before, away, m, e, split)
    requires Scheduled(Near(start, away), near) && Scheduled(Far(start, away), far)
    requires Scheduled(start, s) && Up(start) <= Pods(s)
    ensures SplitHeals(Run(start, before), away, m, e, split, near, far, s)
  {
    RunUpToSplit(start, before, away, m, e, split);
    SplitThenHealed(Run(start, before), away, m, e, split, near, far, s);
  }
}
