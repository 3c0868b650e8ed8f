/** Timed failover: the survivors of a master's death, with what they remember of
    the dead aging out of their caches. */
module Failover {
  import opened PodOrder
  import opened Reconciliation
  import opened PeerCache
  import opened Convergence
  import opened LabelConvergence

  // Whatever the survivors remember of pods that are gone was seen by `death`.
  ghost predicate RememberedUntil(c: Members, death: int)
  {
    forall p, k :: p in c && k in c[p].cache && k !in c ==> c[p].cache[k].lastSeen <= death
  }

  // A survivor that is a replica does not promote itself while a report of a healthy
  // master, dead or alive, is in its cache and at most 60 seconds old.
  lemma NoPromotionWhileRemembered(c: Members, t: Tick, k: string)
    requires WellFormed(c) && NoImpostors(c) && t.pod in c && !c[t.pod].view.master
    requires k !in c && k in c[t.pod].cache && c[t.pod].cache[k].isHealthy && c[t.pod].cache[k].isMaster
    requires t.now - c[t.pod].cache[k].lastSeen <= 60_000_000_000
    ensures !Sync(c, t)[t.pod].view.master
  {
    SeenIsOwnView(c, t);
    SyncChangesOnlyItself(c, t);
    assert k in Seen(c, t) && k in MasterKeys(Seen(c, t));
    PromotesIff(c[t.pod].cfg, Seen(c, t), Report(c[t.pod], t.now), false);
  }

  // The healthy pods p remembers from outside the cluster and still counts.
  ghost predicate Remembers(c: Members, t: Tick, k: string)
    requires t.pod in c
  {
    && k !in c && k in c[t.pod].cache && c[t.pod].cache[k].isHealthy
    && t.now - c[t.pod].cache[k].lastSeen <= 60_000_000_000
  }

  lemma SeenOrRemembered(c: Members, t: Tick)
    requires WellFormed(c) && t.pod in c
    ensures forall k :: k in HealthyKeys(Seen(c, t)) <==> k in Up(c) || Remembers(c, t, k)
    ensures forall k :: Remembers(c, t, k) ==> Seen(c, t)[k] == c[t.pod].cache[k]
    ensures forall k :: k in Up(c) ==> Seen(c, t)[k] == Report(c[k], t.now)
  {
    SeenIsComplete(c, t);
  }

  // Exactly when a survivor takes over: it is the oldest healthy survivor, it may
  // lead, and every healthy pod it still remembers is a younger replica.
  lemma TakesOverIff(c: Members, t: Tick)
    requires WellFormed(c) && NoImpostors(c) && t.pod in c && AllMasters(c) == {}
    ensures Sync(c, t)[t.pod].view.master
       <==> && c[t.pod].cfg.Promotable() && IsOldestPod(c, Up(c), t.pod)
            && forall k :: Remembers(c, t, k) ==>
                 !c[t.pod].cache[k].isMaster && Older(c[t.pod].cfg.id, c[t.pod].cache[k].id)
  {
    var p := t.pod;
    assert p !in AllMasters(c);
    SeenIsOwnView(c, t);
    SyncChangesOnlyItself(c, t);
    PromotesIff(c[p].cfg, Seen(c, t), Report(c[p], t.now), false);
    SeenOrRemembered(c, t);
    MastersAreRemembered(c, t);
    assert p in Up(c) <==> Report(c[p], t.now).isHealthy;
    assert forall k :: k in Up(c) ==> Seen(c, t)[k].id == c[k].cfg.id;
  }

  lemma MastersAreRemembered(c: Members, t: Tick)
    requires WellFormed(c) && t.pod in c && AllMasters(c) == {}
    ensures MasterKeys(Seen(c, t)) == {} <==> forall k :: Remembers(c, t, k) ==> !c[t.pod].cache[k].isMaster
  {
    SeenOrRemembered(c, t);
    forall k | k in MasterKeys(Seen(c, t)) ensures Remembers(c, t, k) {
      assert k !in AllMasters(c) && k in HealthyKeys(Seen(c, t));
    }
    if k :| Remembers(c, t, k) && c[t.pod].cache[k].isMaster {
      assert k in HealthyKeys(Seen(c, t)) && k in MasterKeys(Seen(c, t));
    }
  }

  // What holds from the death on: nobody but e is master, and an e that is master
  // remembers no other healthy master.
  ghost predicate OnlyHeirLeads(c: Members, e: string, death: int)
  {
    && WellFormed(c) && NoImpostors(c) && RememberedUntil(c, death)
    && e in c && IsOldestPod(c, Up(c), e)
    && AllMasters(c) <= {e}
    && (c[e].view.master ==> c[e].cfg.Promotable() && MasterKeys(c[e].cache) <= c.Keys)
  }

  lemma MemoryOnlyFades(c: Members, t: Tick, death: int)
    requires WellFormed(c) && NoImpostors(c) && RememberedUntil(c, death) && t.pod in c
    ensures NoImpostors(Sync(c, t)) && RememberedUntil(Sync(c, t), death)
  {
    SeenIsComplete(c, t);
  }

  // Anyone else stays a replica: the heir is always a better candidate in its view.
  lemma OthersWait(c: Members, t: Tick, e: string, death: int)
    requires OnlyHeirLeads(c, e, death) && t.pod in c && t.pod != e
    ensures !Sync(c, t)[t.pod].view.master
  {
    var p, seen := t.pod, Seen(c, t);
    assert p !in AllMasters(c);
    SeenIsOwnView(c, t);
    SeenIsComplete(c, t);
    SyncChangesOnlyItself(c, t);
    PromotesIff(c[p].cfg, seen, Report(c[p], t.now), false);
    assert e in HealthyKeys(seen);
    if p in Up(c) { OlderTrichotomy(c[e].cfg.id, c[p].cfg.id); }
  }

  // A sync of the heir later than 60 seconds after the death.
  predicate AfterTheWait(t: Tick, e: string, death: int) { t.pod == e && t.now - death > 60_000_000_000 }

  // The heir keeps the role once it has it, and takes it as soon as the dead are forgotten.
  lemma HeirLeads(c: Members, t: Tick, e: string, death: int)
    requires OnlyHeirLeads(c, e, death) && t.pod == e
    ensures c[e].view.master || (c[e].cfg.Promotable() && t.now - death > 60_000_000_000) ==> Sync(c, t)[e].view.master
    ensures Sync(c, t)[e].view.master ==> c[e].cfg.Promotable() && MasterKeys(Seen(c, t)) <= c.Keys
  {
    var seen := Seen(c, t);
    SeenIsOwnView(c, t);
    SeenIsComplete(c, t);
    SyncChangesOnlyItself(c, t);
    PromotesIff(c[e].cfg, seen, Report(c[e], t.now), false);
    forall k | k in c && k != e ensures k !in MasterKeys(seen) {
      assert k !in AllMasters(c);
    }
    if c[e].view.master {
      assert e in HealthyKeys(seen);
      DemotesIff(c[e].cfg, seen, Report(c[e], t.now), false);
      forall k | k in seen && k !in c ensures k !in MasterKeys(seen) {
        assert k !in MasterKeys(c[e].cache);
      }
      OlderTrichotomy(c[e].cfg.id, c[e].cfg.id);
    } else {
      assert e !in AllMasters(c);
      if t.now - death > 60_000_000_000 {
        assert seen.Keys == c.Keys;
      }
    }
  }

  lemma HeirStep(c: Members, t: Tick, e: string, death: int)
    requires OnlyHeirLeads(c, e, death) && t.pod in c
    ensures OnlyHeirLeads(Sync(c, t), e, death)
    ensures c[e].view.master || (c[e].cfg.Promotable() && AfterTheWait(t, e, death)) ==> Sync(c, t)[e].view.master
  {
    var c' := Sync(c, t);
    SyncKeepsSetup(c, t);
    SyncChangesOnlyItself(c, t);
    MemoryOnlyFades(c, t, death);
    assert Up(c') == Up(c);
    if t.pod == e { HeirLeads(c, t, e, death); } else { OthersWait(c, t, e, death); }
    forall q | q in AllMasters(c') ensures q == e {
      assert q != t.pod ==> q in AllMasters(c);
    }
  }

  ghost predicate WaitedFor(s: seq<Tick>, e: string, death: int)
  {
    exists i :: 0 <= i < |s| && AfterTheWait(s[i], e, death)
  }

  // In every schedule with complete live views the oldest healthy survivor is the
  // only pod that ever leads, and if it may lead it does so for good from its first
  // sync later than 60 seconds after the death.
  lemma {:induction false} FailsOver(c: Members, e: string, death: int, s: seq<Tick>)
    requires OnlyHeirLeads(c, e, death) && Scheduled(c, s)
    ensures OnlyHeirLeads(Run(c, s), e, death) && SameSetup(c, Run(c, s))
    ensures c[e].view.master || (c[e].cfg.Promotable() && WaitedFor(s, e, death)) ==> Run(c, s)[e].view.master
    decreases |s|
  {
    if s == [] {
    } else {
      HeirStep(c, s[0], e, death);
      SyncKeepsSetup(c, s[0]);
      FailsOver(Sync(c, s[0]), e, death, s[1..]);
      if i :| 0 <= i < |s| && AfterTheWait(s[i], e, death) {
        if i > 0 { assert AfterTheWait(s[1..][i - 1], e, death); }
      }
    }
  }

  // ------------------------------------------------------------ the whole story

  // Whatever is remembered is about members, under their own identity, and was seen by `now`.
  ghost predicate MemoryUpTo(c: Members, now: int)
  {
    forall p :: p in c ==> TrueMemory(c, c[p].cache, now)
  }

  ghost predicate TrueMemory(c: Members, cache: Cache, now: int)
  {
    forall k :: k in cache ==> k in c && cache[k].id == c[k].cfg.id && cache[k].lastSeen <= now
  }

  lemma {:induction false} RunRemembers(c: Members, s: seq<Tick>, now: int)
    requires WellFormed(c) && Scheduled(c, s) && MemoryUpTo(c, now)
    requires forall i :: 0 <= i < |s| ==> s[i].now <= now
    ensures WellFormed(Run(c, s)) && SameSetup(c, Run(c, s)) && MemoryUpTo(Run(c, s), now)
    decreases |s|
  {
    if s == [] {
    } else {
      SyncKeepsSetup(c, s[0]);
      SyncRemembers(c, s[0], now);
      RunRemembers(Sync(c, s[0]), s[1..], now);
    }
  }

  lemma SeenIsTrue(c: Members, t: Tick, now: int)
    requires WellFormed(c) && t.pod in c && MemoryUpTo(c, now) && t.now <= now
    ensures TrueMemory(c, Seen(c, t), now)
  {
    SeenIsComplete(c, t);
    assert TrueMemory(c, c[t.pod].cache, now);
  }

  lemma SameSetupSameTruth(c: Members, c': Members, cache: Cache, now: int)
    requires SameSetup(c, c') && TrueMemory(c, cache, now)
    ensures TrueMemory(c', cache, now)
  {
  }

  lemma SyncRemembers(c: Members, t: Tick, now: int)
    requires WellFormed(c) && t.pod in c && MemoryUpTo(c, now) && t.now <= now
    ensures MemoryUpTo(Sync(c, t), now)
  {
    var c' := Sync(c, t);
    SyncKeepsSetup(c, t);
    SeenIsTrue(c, t, now);
    forall p | p in c' ensures TrueMemory(c', c'[p].cache, now) {
      assert p != t.pod ==> c'[p] == c[p];
      SameSetupSameTruth(c, c', c'[p].cache, now);
    }
  }

  // The pods in `lost` are gone, every master among them: what is left satisfies the
  // invariant above.
  lemma MastersGone(c: Members, lost: set<string>, e: string, death: int)
    requires WellFormed(c) && MemoryUpTo(c, death) && AllMasters(c) <= lost
    requires IsOldestPod(c - lost, Up(c - lost), e)
    ensures OnlyHeirLeads(c - lost, e, death) && AllMasters(c - lost) == {}
  {
    var rest := c - lost;
    forall p | p in rest ensures NoImpostorIn(rest, rest[p].cache) {
      assert TrueMemory(c, c[p].cache, death);
    }
    forall p, k | p in rest && k in rest[p].cache && k !in rest ensures rest[p].cache[k].lastSeen <= death {
      assert TrueMemory(c, c[p].cache, death);
    }
    assert forall q :: q in rest && rest[q].view.master ==> q in AllMasters(c);
  }

  lemma SurvivorsFailOver(c: Members, lost: set<string>, e: string, death: int, s: seq<Tick>)
    requires WellFormed(c) && MemoryUpTo(c, death) && AllMasters(c) <= lost
    requires IsOldestPod(c - lost, Up(c - lost), e) && Scheduled(c - lost, s)
    ensures AllMasters(Run(c - lost, s)) <= {e}
    ensures c[e].cfg.Promotable() && WaitedFor(s, e, death) ==> AllMasters(Run(c - lost, s)) == {e}
    ensures e in AllMasters(Run(c - lost, s)) ==> c[e].cfg.Promotable()
    ensures WellFormed(Run(c - lost, s)) && SameSetup(c - lost, Run(c - lost, s))
  {
    MastersGone(c, lost, e, death);
    FailsOver(c - lost, e, death, s);
    var end := Run(c - lost, s);
    assert end[e].view.master <==> e in AllMasters(end);
  }

  // A cluster runs until `death`, when the pods in `lost` are gone, every master among
  // them. From then on, after every schedule of the survivors, nobody but the oldest
  // healthy survivor leads; and once that survivor has synced more than 60 seconds after
  // the death, and may lead, it is the one master.
  lemma TimedFailover(start: Members, before: seq<Tick>, lost: set<string>, e: string, death: int, s: seq<Tick>)
    requires WellFormed(start) && MemoryUpTo(start, death) && Scheduled(start, before)
    requires forall k :: 0 <= k < |before| ==> before[k].now <= death
    requires AllMasters(Run(start, before)) <= lost
    requires IsOldestPod(start - lost, Up(start - lost), e) && Scheduled(start - lost, s)
    ensures AllMasters(Run(Run(start, before) - lost, s)) <= {e}
    ensures start[e].cfg.Promotable() && WaitedFor(s, e, death) ==>
              AllMasters(Run(Run(start, before) - lost, s)) == {e}
  {
    var c := Run(start, before);
    RunRemembers(start, before, death);
    SurvivorsKeepSetup(start, c, lost, e);
    SurvivorsFailOver(c, lost, e, death, s);
  }

  lemma SurvivorsKeepSetup(c: Members, c': Members, lost: set<string>, e: string)
    requires SameSetup(c, c') && IsOldestPod(c - lost, Up(c - lost), e)
    ensures Up(c' - lost) == Up(c - lost) && IsOldestPod(c' - lost, Up(c' - lost), e)
  {
    assert Up(c' - lost) == Up(c - lost);
  }
}
