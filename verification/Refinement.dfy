/** The granularities agree: one whole sync, as the orchestrator does it and as the
    atomic system steps, is an observation followed by its calls run to the end, and
    every atomic schedule is one of the interleaved runs. */
module Refinement {
  import opened Reconciliation
  import opened PeerCache
  import opened Cluster
  import opened CallConvergence
  import Convergence
  import Orchestration

  // ------------------------------------------------------------------ one sync

  // What the orchestrator's SyncState promises, for any view and cache it starts from,
  // is what observing and then finishing the calls gives.
  lemma SyncStateIsObserveThenFinish(orc: Orchestration.Orchestrator, env: Orchestration.Env, v: Visible, cache: Cache)
    ensures var local := orc.LocalState(env, v);
            var merged := Merge(cache, orc.cfg.id.name, local, env.replies, env.now);
            var seen := Observation(env.now, env.pingOk, env.replies, env.leader, env.linkDown);
            Finished(Observed(Node(orc.cfg, v, cache, []), seen), env.outcome) ==
            Node(orc.cfg, orc.After(Decide(orc.cfg, merged, local, env.leader), env, v), merged, [])
  {
    var seen := Observation(env.now, env.pingOk, env.replies, env.leader, env.linkDown);
    FinishedIsRunCalls(Observed(Node(orc.cfg, v, cache, []), seen), env.outcome);
  }

  function NodeOf(m: Convergence.Member): Node { Node(m.cfg, m.view, m.cache, []) }

  // The observation a whole sync with complete views makes.
  function SeenBy(c: Convergence.Members, t: Convergence.Tick): Observation
    requires t.pod in c
  {
    var replies := map q | q in c && q != t.pod :: Convergence.Report(c[q], t.now);
    Observation(t.now, c[t.pod].healthy, replies, false, t.linkDown)
  }

  lemma SyncIsObserveThenFinish(c: Convergence.Members, t: Convergence.Tick)
    requires t.pod in c && c[t.pod].cfg.id.name == t.pod
    ensures Finished(Observed(NodeOf(c[t.pod]), SeenBy(c, t)), _ => Done) == NodeOf(Convergence.Sync(c, t)[t.pod])
  {
    FinishedIsRunCalls(Observed(NodeOf(c[t.pod]), SeenBy(c, t)), _ => Done);
  }

  // -------------------------------------------------------------- whole schedules

  ghost predicate Matches(s: State, c: Convergence.Members)
  {
    s.Keys == c.Keys && forall p :: p in s ==> s[p] == NodeOf(c[p])
  }

  // A smooth step extends a smooth run.
  lemma SmoothExtends(r: seq<State>, steps: seq<Step>, step: Step, up: set<string>)
    requires SmoothRun(r, steps, up) && Enabled(r, |steps|, step)
    requires step.Observe? ==> SeesNow(r[|steps|], step.pod, step.seen, up)
    requires step.Perform? ==> step.outcome == Done
    ensures SmoothRun(r + [Apply(r[|steps|], step)], steps + [step], up)
  {
    RunExtends(r, steps, step);
    var r', steps' := r + [Apply(r[|steps|], step)], steps + [step];
    forall i | 0 <= i < |steps'| ensures SmoothAt(r', steps', i, up) {
      if i < |steps| {
        assert SmoothAt(r, steps, i, up) && steps'[i] == steps[i] && r'[i] == r[i];
      }
    }
  }

  // A pod's pending calls can run to the end, one step each.
  lemma {:induction false} CallsRunOut(r: seq<State>, steps: seq<Step>, p: string, up: set<string>)
    returns (r': seq<State>, steps': seq<Step>)
    requires SmoothRun(r, steps, up) && p in r[|steps|]
    ensures SmoothRun(r', steps', up) && r <= r' && steps <= steps'
    ensures r'[|steps'|] == r[|steps|][p := Finished(r[|steps|][p], _ => Done)]
    decreases |r[|steps|][p].todo|
  {
    var s := r[|steps|];
    if s[p].todo == [] {
      r', steps' := r, steps;
    } else {
      var call := Perform(p, Done);
      SmoothExtends(r, steps, call, up);
      var next := Apply(s, call);
      r', steps' := CallsRunOut(r + [next], steps + [call], p, up);
      assert (r + [next])[|steps| + 1] == next;
    }
  }

  lemma SyncIsEnabled(r: seq<State>, steps: seq<Step>, c: Convergence.Members, t: Convergence.Tick)
    requires Run(r, steps) && Matches(r[|steps|], c) && Convergence.WellFormed(c) && t.pod in c
    ensures Enabled(r, |steps|, Observe(t.pod, SeenBy(c, t)))
    ensures SeesNow(r[|steps|], t.pod, SeenBy(c, t), Convergence.Up(c))
  {
    var i, o := |steps|, SeenBy(c, t);
    forall k | k in o.replies ensures OnceTrue(r, i, k, o.replies[k]) {
      assert k in r[i] && r[i][k] == NodeOf(c[k]);
    }
  }

  // One atomic sync as a stretch of an interleaved run.
  lemma SyncAsSteps(r: seq<State>, steps: seq<Step>, c: Convergence.Members, t: Convergence.Tick)
    returns (r': seq<State>, steps': seq<Step>)
    requires SmoothRun(r, steps, Convergence.Up(c)) && Matches(r[|steps|], c)
    requires Convergence.WellFormed(c) && t.pod in c
    ensures SmoothRun(r', steps', Convergence.Up(c)) && r <= r' && steps <= steps'
    ensures Matches(r'[|steps'|], Convergence.Sync(c, t))
    ensures |steps| < |steps'| && Observes(steps', |steps|, t.pod)
  {
    var observe := Observe(t.pod, SeenBy(c, t));
    SyncIsEnabled(r, steps, c, t);
    SmoothExtends(r, steps, observe, Convergence.Up(c));
    var next := Apply(r[|steps|], observe);
    r', steps' := CallsRunOut(r + [next], steps + [observe], t.pod, Convergence.Up(c));
    assert (r + [next])[|steps| + 1] == next;
    SyncIsObserveThenFinish(c, t);
    assert steps'[|steps|] == (steps + [observe])[|steps|];
  }

  ghost predicate ObservedSince(steps: seq<Step>, b: int, s: seq<Convergence.Tick>)
    requires 0 <= b <= |steps|
  {
    forall i :: 0 <= i < |s| ==> HasObserved(steps, b, |steps|, s[i].pod)
  }

  // Every atomic schedule is an interleaved run, in which its pods observe.
  lemma {:induction false} ScheduleAsSteps(r: seq<State>, steps: seq<Step>, c: Convergence.Members,
                                           s: seq<Convergence.Tick>)
    returns (r': seq<State>, steps': seq<Step>)
    requires SmoothRun(r, steps, Convergence.Up(c)) && Matches(r[|steps|], c)
    requires Convergence.WellFormed(c) && Convergence.Scheduled(c, s)
    ensures SmoothRun(r', steps', Convergence.Up(c)) && r <= r' && steps <= steps'
    ensures Matches(r'[|steps'|], Convergence.Run(c, s)) && ObservedSince(steps', |steps|, s)
    decreases |s|
  {
    if s == [] {
      r', steps' := r, steps;
    } else {
      var r1, steps1 := SyncAsSteps(r, steps, c, s[0]);
      Convergence.SyncKeepsSetup(c, s[0]);
      assert Convergence.Up(Convergence.Sync(c, s[0])) == Convergence.Up(c);
      r', steps' := ScheduleAsSteps(r1, steps1, Convergence.Sync(c, s[0]), s[1..]);
      assert steps'[|steps|] == steps1[|steps|];
      ObservedSinceCons(steps, steps1, steps', s);
    }
  }

  lemma ObservedSinceCons(steps: seq<Step>, steps1: seq<Step>, steps': seq<Step>, s: seq<Convergence.Tick>)
    requires s != [] && |steps| < |steps1| <= |steps'| && Observes(steps', |steps|, s[0].pod)
    requires ObservedSince(steps', |steps1|, s[1..])
    ensures ObservedSince(steps', |steps|, s)
  {
    forall i | 0 <= i < |s| ensures HasObserved(steps', |steps|, |steps'|, s[i].pod) {
      if i > 0 {
        assert s[1..][i - 1] == s[i];
        assert HasObserved(steps', |steps1|, |steps'|, s[i].pod);
      }
    }
  }

  // ------------------------------------------ exactly when every interleaving converges

  ghost predicate TwoRounds(s: State, up: set<string>, r: seq<State>, steps: seq<Step>, j: int, k: int)
  {
    SmoothRun(r, steps, up) && r[0] == s && CallRound(r, steps, 0, j) && CallRound(r, steps, j, k)
  }

  // Every interleaving in which each pod observes twice, with nothing pending in
  // between and at the end, ends with exactly one healthy master.
  ghost predicate AlwaysConverges(s: State, up: set<string>)
  {
    forall r, steps, j, k :: TwoRounds(s, up, r, steps, j, k) ==> |HealthyMasters(r[k], up)| == 1
  }

  ghost predicate Startable(s: State, up: set<string>) { Init(s) && DeterministicMode(s) && HealthFits(s, up) }

  // The start as the atomic system has it.
  function AtomicOf(s: State, up: set<string>): Convergence.Members
  {
    map p | p in s :: Convergence.Member(s[p].cfg, p in up, s[p].view, map[])
  }

  lemma AtomicStart(s: State, up: set<string>)
    requires Startable(s, up)
    ensures var c := AtomicOf(s, up);
            Convergence.WellFormed(c) && Convergence.NoStrangers(c) && Convergence.Up(c) == up && Matches(s, c)
  {
  }

  lemma AtomicMasters(s: State, c: Convergence.Members)
    requires Matches(s, c)
    ensures HealthyMasters(s, Convergence.Up(c)) == Convergence.HealthyMasters(c)
    ensures forall names, t :: names <= c.Keys ==> (OldestIn(s, names, t) <==> Convergence.IsOldestPod(c, names, t))
  {
  }

  lemma AtomicMayLead(s: State, up: set<string>)
    requires Startable(s, up) && Convergence.SomeoneMayLead(AtomicOf(s, up))
    ensures SomeoneMayLead(s, up)
  {
    var c := AtomicOf(s, up);
    AtomicStart(s, up);
    AtomicMasters(s, c);
    if t :| Convergence.IsOldestPod(c, Convergence.HealthyMasters(c), t) && c[t].cfg.Promotable() {
      assert OldestIn(s, HealthyMasters(s, up), t);
    } else {
      var e :| Convergence.IsOldestPod(c, Convergence.Up(c), e) && c[e].cfg.Promotable();
      assert OldestIn(s, up, e);
    }
  }

  // An atomic round, appended to a quiet run, is a round of calls.
  lemma RoundAsSteps(r: seq<State>, steps: seq<Step>, c: Convergence.Members, s: seq<Convergence.Tick>)
    returns (r': seq<State>, steps': seq<Step>)
    requires SmoothRun(r, steps, Convergence.Up(c)) && Matches(r[|steps|], c)
    requires Convergence.WellFormed(c) && Convergence.Round(c, s)
    ensures SmoothRun(r', steps', Convergence.Up(c)) && r <= r' && steps <= steps'
    ensures Matches(r'[|steps'|], Convergence.Run(c, s)) && CallRound(r', steps', |steps|, |steps'|)
  {
    r', steps' := ScheduleAsSteps(r, steps, c, s);
    SamePods(r, steps, |steps|);
    assert r'[|steps|] == r[|steps|] && r'[0] == r[0];
    forall p | p in r'[0] ensures HasObserved(steps', |steps|, |steps'|, p) {
      assert p in Convergence.Pods(s);
      var i :| 0 <= i < |s| && s[i].pod == p;
      assert HasObserved(steps', |steps|, |steps'|, s[i].pod);
    }
  }

  lemma CallRoundStays(r: seq<State>, steps: seq<Step>, r': seq<State>, steps': seq<Step>, b: int, j: int)
    requires |r| == |steps| + 1 && |r'| == |steps'| + 1 && r <= r' && steps <= steps' && CallRound(r, steps, b, j)
    ensures CallRound(r', steps', b, j)
  {
    assert r'[b] == r[b] && r'[j] == r[j] && r'[0] == r[0];
    forall p | p in r'[0] ensures HasObserved(steps', b, j, p) {
      assert HasObserved(steps, b, j, p);
      var a :| b <= a < j && Observes(steps, a, p);
      assert Observes(steps', a, p);
    }
  }

  // If nobody may lead, some schedule of two rounds ends without a healthy master.
  lemma SomeScheduleStaysEmpty(c: Convergence.Members) returns (ticks: seq<Convergence.Tick>)
    requires Convergence.WellFormed(c) && Convergence.NoStrangers(c) && !Convergence.SomeoneMayLead(c)
    ensures Convergence.Round(c, ticks)
    ensures var c' := Convergence.Run(c, ticks);
            && Convergence.WellFormed(c') && Convergence.Up(c') == Convergence.Up(c)
            && Convergence.HealthyMasters(Convergence.Run(c', ticks)) == {}
            && Convergence.Up(Convergence.Run(c', ticks)) == Convergence.Up(c)
  {
    ticks := Convergence.SomeRoundEmpties(c);
    Convergence.RunKeepsUp(c, ticks);
    Convergence.StaysEmptyAgain(c, Convergence.Run(c, ticks), ticks);
    Convergence.RunKeepsUp(Convergence.Run(c, ticks), ticks);
  }

  lemma TwoRoundsAsSteps(s: State, up: set<string>, ticks: seq<Convergence.Tick>)
    returns (r: seq<State>, steps: seq<Step>, j: int, k: int)
    requires Startable(s, up) && Convergence.Round(AtomicOf(s, up), ticks)
    requires var c' := Convergence.Run(AtomicOf(s, up), ticks);
             Convergence.WellFormed(c') && Convergence.Up(c') == up
    ensures TwoRounds(s, up, r, steps, j, k)
    ensures Matches(r[k], Convergence.Run(Convergence.Run(AtomicOf(s, up), ticks), ticks))
  {
    AtomicStart(s, up);
    var r0, steps0: seq<Step> := [s], [];
    assert SmoothRun(r0, steps0, up);
    var r1, steps1 := RoundAsSteps(r0, steps0, AtomicOf(s, up), ticks);
    r, steps := RoundAsSteps(r1, steps1, Convergence.Run(AtomicOf(s, up), ticks), ticks);
    j, k := |steps1|, |steps|;
    CallRoundStays(r1, steps1, r, steps, 0, j);
  }

  // ... and so does some interleaving.
  lemma SomeInterleavingStaysEmpty(s: State, up: set<string>)
    returns (r: seq<State>, steps: seq<Step>, j: int, k: int)
    requires Startable(s, up) && !SomeoneMayLead(s, up)
    ensures TwoRounds(s, up, r, steps, j, k) && HealthyMasters(r[k], up) == {}
  {
    AtomicStart(s, up);
    if Convergence.SomeoneMayLead(AtomicOf(s, up)) { AtomicMayLead(s, up); }
    var ticks := SomeScheduleStaysEmpty(AtomicOf(s, up));
    r, steps, j, k := TwoRoundsAsSteps(s, up, ticks);
    AtomicMasters(r[k], Convergence.Run(Convergence.Run(AtomicOf(s, up), ticks), ticks));
  }

  // "Exactly one master" holds in every interleaving of observations and single calls
  // if and only if the oldest healthy master may be one or the oldest healthy pod may.
  lemma CallByCallConvergesIff(s: State, up: set<string>)
    requires Startable(s, up)
    ensures AlwaysConverges(s, up) <==> SomeoneMayLead(s, up)
  {
    if SomeoneMayLead(s, up) {
      forall r, steps, j, k | TwoRounds(s, up, r, steps, j, k) ensures |HealthyMasters(r[k], up)| == 1 {
        var t := TwoCallRoundsLeaveOne(r, steps, j, k, up);
        assert HealthyMasters(r[k], up) == {t};
      }
    } else {
      var r, steps, j, k := SomeInterleavingStaysEmpty(s, up);
      assert |HealthyMasters(r[k], up)| == 0;
    }
  }
}
