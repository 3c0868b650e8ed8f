# Redis Orchestrator, modelled in Dafny

Each pod of a Redis cluster runs an orchestrator that observes its own Redis, collects
reports from its peers into a cache whose entries expire after 60 seconds, and then
promotes itself, demotes itself or repairs its replication. No pod acts on another, so
"exactly one master" emerges from all interleavings of what the pods do on their own.
This project models that protocol and the parts it rests on, and proves what it keeps
and where it ends up.

`dafny verify dfyconfig.toml` checks everything.

## Structure

- `PodOrder.dfy`, `Election.dfy`: the election order, the in-place sort, the deterministic strategy.
- `Reconciliation.dfy`: what a pod decides from its cache, and the calls a decision makes.
- `PeerCache.dfy`: the expiring cache against the reply history.
- `Orchestrator.dfy`: the orchestrator as a class, proved to compute the two files above.
- `Cluster.dfy`: runs at the granularity of single Redis and Kubernetes calls, for safety.
- `CallConvergence.dfy`, `Refinement.dfy`: convergence of those runs, with nothing atomic, and how the
  granularities fit together.
- `Convergence.dfy`, `LabelConvergence.dfy`, `Failover.dfy`, `Partition.dfy`: runs of whole syncs, for
  convergence, labels, timed failover and partition heal.
- `RaftMode.dfy`, `Membership.dfy`, `Bootstrap.dfy`: roles under Raft, membership handlers, cluster formation.
- `Decimal.dfy`, `ReplicationInfo.dfy`, `Auth.dfy`: the INFO parser and request signing.

## Assumptions kept explicit

- A call (Redis command or label update) has one of three outcomes: it takes effect, it is refused, or
  it takes effect and still reports an error. Clocks, replies, pings and what the Raft library answers
  are parameters.
- A pod's Redis role changes only through its own orchestrator.
- Reports are true when made; they may arrive late, be lost or be kept until they expire.
- The deterministic-mode theorems about runs say which of these they need: no master that nobody
  outranks steps down for a failed ping, labelled pods' removals take effect, views are complete, the
  pod to settle on may lead.
- In the system of whole syncs every reply carries the observer's clock, so a live peer is never swept
  in the sync that heard from it; the code stamps a reply with the peer's own clock, and a peer more
  than 60 s behind would be swept. The interleaved runs ask for fresh replies instead.
- In both systems an unhealthy pod is one whose ping fails while INFO answers. A pod whose INFO fails
  sends no reply and its sync changes nothing, so it is like a pod that is gone and takes no steps.
- `sort.Slice` is modelled by the insertion sort it uses on short slices.
- The Raft library's AddVoter and AddNonvoter are taken to overwrite a server with the same ID.

## Where the code and its description differ

- `reconcile` is described as ensuring exactly one master. With a no-promote pod or a witness that is
  older than everyone else this is not so: the others elect it and wait. `Convergence.ConvergesIff`
  and, call by call, `Refinement.CallByCallConvergesIff` give the exact condition.
- The repository's README says an election happens on every sync cycle. The code elects only when it
  sees no healthy master; `Reconciliation.PromotesIff` and `Reconciliation.DemotesIff` follow the code.
- A master that fails its own ping steps down even when nobody takes over
  (`Cluster.FailedPingLeavesNoMaster`; `Cluster.LosersOutrankedIff` says exactly when), and a refused
  label removal leaves the label on a replica (`Cluster.StrayLabelStays`, `Cluster.LabelsSafeIff`).
- Auto-join is described as retrying until it succeeds or gives up. Its log line slices eight bytes off
  the leader ID a peer reported, which is empty when the peer has won but does not name itself yet; the
  process then goes down (`Bootstrap.ShortIdIff`, `Bootstrap.UnnamedLeaderCrashesJoiner`).
- The clock-skew test wraps around beyond 9223372036 seconds (`Auth.WindowExactIff`).

## Model

| member | source | states |
|---|---|---|
| `PodOrder.OlderTrichotomy` | pkg/election/deterministic.go:86-94 | the three-key comparator never holds both ways and always decides between two different identities |
| `PodOrder.OlderTransitive` | pkg/election/deterministic.go:86-94 | the comparator is transitive, so with the row above it is a strict total order on (startup time, name, UID) |
| `PodOrder.StringLessIff` | pkg/election/deterministic.go:88-92 | the string comparison is Go's: after a common start, one string ends or has the smaller character |
| `PodOrder.OldestIsEarliest` | pkg/election/deterministic.go:86-94 | the oldest of a set is the one nobody started before, with the least name among those that started with it and the least UID among those of its name, and it alone |
| `PodOrder.OldestExists` | pkg/orchestrator/orchestrator.go:520-530 | every non-empty candidate set has an oldest member |
| `PodOrder.OldestUnique` | pkg/orchestrator/orchestrator.go:520-530 | the oldest member is unique, so the winner is a function of the candidate set |
| `PodOrder.OldestOfUnion` | pkg/orchestrator/orchestrator.go:766-776 | the winner of a union of two views is the older of the two views' winners |
| `Election.SortStates` | pkg/orchestrator/orchestrator.go:520-528 | the in-place sort leaves a sorted permutation of the slice |
| `Election.SortedHeadIsOldest` | pkg/orchestrator/orchestrator.go:530-530 | the head of any sorted permutation carries the unique oldest identity |
| `Election.ElectionIgnoresOrder` | pkg/election/deterministic.go:64-96 | two arrival orders of the same candidates elect the same identity, so map iteration order does not matter |
| `Election.DeterministicStrategy.constructor` | pkg/election/deterministic.go:22-28 | a strategy that has not yet elected from any candidates |
| `Election.DeterministicStrategy.ElectLeader` | pkg/election/deterministic.go:66-113 | sorts its argument in place, stores and returns the candidate that started first, by name and then UID among equals; on no candidates reports the error and keeps the stored leader, which stays the oldest of the latest candidates |
| `Election.DeterministicStrategy.IsLeader` | pkg/election/deterministic.go:44-52 | true exactly when the local pod is the winner of the latest election that had candidates, whatever order they came in |
| `Election.DeterministicStrategy.GetLeader` | pkg/election/deterministic.go:54-62 | an error exactly when no election has had candidates yet, otherwise name and UID of the winner of the latest one |
| `Election.OneWinner` | pkg/election/deterministic.go:64-96 | of candidates with distinct UIDs exactly one wins, and strategies that got them in different orders agree on it |
| `Reconciliation.DemotesIff` | pkg/orchestrator/orchestrator.go:604-654 | in deterministic mode a master steps down exactly when it is no-promote, failed its own ping, or sees an older healthy master |
| `Reconciliation.PromotesIff` | pkg/orchestrator/orchestrator.go:472-580 | in deterministic mode a pod promotes exactly when it may, sees no healthy master, answered its own ping and is the oldest healthy pod it sees |
| `Reconciliation.NoPromoteDemotes` | pkg/orchestrator/orchestrator.go:480-499 | in both modes a no-promote master that sees a healthy pod steps down, and a no-promote pod never chooses to promote |
| `Reconciliation.DecisionFitsRole` | pkg/orchestrator/orchestrator.go:622-653 | only masters are demoted or labelled, only replicas have their link repaired, only promotable pods promote |
| `Reconciliation.CallsIff` | pkg/orchestrator/orchestrator.go:407-828 | the exact calls of a decision in both modes and every branch: when it promotes, demotes, labels or re-attaches, in terms of role, flags, what the pod sees, leadership and link state, and that it does nothing else |
| `PeerCache.CachedIff` | pkg/orchestrator/orchestrator.go:384-403 | with no assumption on the clock: a peer is cached exactly when its last reply survived every sweep since it arrived, and then with that reply |
| `PeerCache.CacheRefinesHistory` | pkg/orchestrator/orchestrator.go:384-403 | for every history with a clock that never goes back, the merged and swept map equals own state plus each peer's last reply that is at most 60 s old |
| `PeerCache.MergeKeepsSixtySeconds` | pkg/orchestrator/orchestrator.go:384-403 | after one update a peer is there exactly when its newest report is at most 60 s old, and with that report; the pod itself always is |
| `PeerCache.ClockStepBackForgets` | pkg/orchestrator/orchestrator.go:396-402 | a clock that steps back breaks that equality: concrete history |
| `Orchestration.Orchestrator.constructor` | pkg/orchestrator/orchestrator.go:50-68 | a witness, and only a witness, has no Redis client |
| `Orchestration.Orchestrator.SyncState` | pkg/orchestrator/orchestrator.go:230-274 | one sync: the new cache is the merge of own state and replies, the calls made are exactly those of the decision on that cache, and role and label are what those calls make of them; a failed INFO changes nothing; a witness makes no call and changes nothing |
| `Orchestration.Orchestrator.GetLocalState` | pkg/orchestrator/orchestrator.go:276-313 | the witness state without Redis, otherwise role and ping, or the INFO error |
| `Orchestration.Orchestrator.UpdatePeerStates` | pkg/orchestrator/orchestrator.go:384-403 | the two map loops compute the merge, in whatever order they visit the keys |
| `Orchestration.Orchestrator.StoreReplies` | pkg/orchestrator/orchestrator.go:392-394 | the reply loop overlays the replies on the map |
| `Orchestration.Orchestrator.SweepStale` | pkg/orchestrator/orchestrator.go:396-402 | the sweep keeps own entry and exactly the peers at most 60 s old |
| `Orchestration.Orchestrator.HealthyStates` | pkg/orchestrator/orchestrator.go:409-416 | the healthy entries, each once, in some order |
| `Orchestration.Orchestrator.CollectMasters` | pkg/orchestrator/orchestrator.go:423-432 | the masters of the slice, in the slice's order |
| `Orchestration.MastersShown` | pkg/orchestrator/orchestrator.go:423-432 | the masters of the slice are the healthy masters of the cache, each once, so their number picks the right branch |
| `Orchestration.Orchestrator.Reconcile` | pkg/orchestrator/orchestrator.go:407-470 | makes exactly the calls of the decision on the current cache |
| `Orchestration.Orchestrator.HandleNoMaster` | pkg/orchestrator/orchestrator.go:472-580 | elects the oldest pod of the slice it is given, whatever the slice's order, and makes exactly the calls that election asks of this pod; nothing on a witness |
| `Orchestration.Orchestrator.HandleSingleMaster` | pkg/orchestrator/orchestrator.go:604-654 | makes exactly the calls that the given sole master asks of this pod; nothing on a witness |
| `Orchestration.Orchestrator.HandleSplitBrain` | pkg/orchestrator/orchestrator.go:734-828 | keeps the oldest master of the slice it is given and makes exactly the calls that choice asks of this pod; nothing on a witness |
| `Orchestration.Orchestrator.HandleRaftMode` | pkg/orchestrator/orchestrator.go:656-732 | makes exactly the calls the leadership answer asks of this pod; nothing on a witness |
| `Orchestration.Orchestrator.PromoteToMaster` | pkg/orchestrator/orchestrator.go:830-857 | Redis first, then the label, and no label when Redis reports a failure; nothing on a no-promote pod |
| `Orchestration.Orchestrator.DemoteToReplica` | pkg/orchestrator/orchestrator.go:859-888 | the label first, then Redis even when the label call failed |
| `Orchestration.Orchestrator.CheckAndFixReplication` | pkg/orchestrator/orchestrator.go:893-955 | nothing on a master or a witness; on a replica REPLICAOF exactly when its link is down, and no other call |
| `Orchestration.Orchestrator.EnsureMasterLabel` | pkg/orchestrator/orchestrator.go:957-993 | sets the label unless the pod is no-promote or the call fails |
| `Orchestration.Orchestrator.CallRedis` | pkg/redis/client.go:75-101 | the two role commands, each of which may take effect, be refused, or take effect and still report an error |
| `Orchestration.Orchestrator.CallKubernetes` | pkg/orchestrator/orchestrator.go:995-1018 | the label calls, with the same three outcomes |
| `Cluster.RunKeeps` | pkg/orchestrator/orchestrator.go:230-274 | at every point of every run, in both modes: each cached report was once true of its pod, witnesses and no-promote pods have no forbidden call pending, and the pending calls have one of five shapes |
| `Cluster.SyncCallsIff` | pkg/orchestrator/orchestrator.go:407-955 | one sync has REPLICAOF as its only call exactly when a replica's link is down and it sees a master, or is no-promote (deterministic), or is promotable and does not lead (Raft); likewise the exact condition for its other calls |
| `Cluster.OldestEverMasterStillIs` | pkg/orchestrator/orchestrator.go:604-828 | never masterless, sharp form: under every interleaving of observations and single calls, with lost, delayed or stale reports and failing calls, the oldest pod that has ever been master is master, as long as no master that nobody outranks decides to step down for a failed ping or a no-promote flag (deterministic mode, any roles and flags to start with) |
| `Cluster.NeverMasterless` | pkg/orchestrator/orchestrator.go:405-470 | hence under the same condition a cluster that has had a master has one at every later point |
| `Cluster.LosersOutrankedIff` | pkg/orchestrator/orchestrator.go:408-421 | the exact condition: every pod that loses the role, or is about to, gives way to an older pod that has been master if and only if no un-outranked master that may not lead or failed its ping observes a healthy pod |
| `Cluster.BreakDethrones` | pkg/orchestrator/orchestrator.go:637-645 | and such an observation does cost the role: the run goes on to a state where the oldest pod that has ever been master is a replica |
| `Cluster.FailedPingLeavesNoMaster` | pkg/orchestrator/orchestrator.go:408-416 | the condition is needed, for every pair of pods: the only master fails its ping and steps down for a replica that does not take over; `Cluster.LosersOutrankedIff` is the exact condition |
| `Cluster.LabelledImpliesMaster` | pkg/orchestrator/orchestrator.go:830-888 | in both modes, between any two calls of any run where no labelled pod's removal is refused, a labelled pod is a Redis master, whatever the other calls do |
| `Cluster.LabelsSafeIff` | pkg/orchestrator/orchestrator.go:877-887 | exactly: every labelled pod is a master, with no demotion past its label removal, at every point of a run if and only if no removal on a labelled pod is refused |
| `Cluster.DemotionKeepsLabelSafeIff` | pkg/orchestrator/orchestrator.go:877-887 | a demotion of a labelled master keeps that exactly when the removal takes effect or the Redis command does not |
| `Cluster.StrayLabelStays` | pkg/orchestrator/orchestrator.go:877-879 | a label left on a replica stays as long as the pod stays a replica |
| `Cluster.NoPromoteNeverGains` | pkg/orchestrator/orchestrator.go:830-836 | in both modes, over whole runs, a no-promote pod never gains the role or the label |
| `Cluster.NoPromoteEndsAsReplica` | pkg/orchestrator/orchestrator.go:672-689 | and is a replica for good once it has observed a healthy pod and its calls are done, the Redis commands among them having taken effect |
| `Cluster.WitnessNeverActs` | pkg/orchestrator/orchestrator.go:657-662 | in both modes, over whole runs, a witness has no call to make and nothing visible about it changes |
| `Cluster.FinishedIsRunCalls` | pkg/orchestrator/orchestrator.go:830-888 | letting a pod's pending calls run out one by one gives what one whole sync gives |
| `CallConvergence.SeesTheCluster` | pkg/orchestrator/orchestrator.go:230-274 | an observation that hears every peer decides on exactly the cluster as it is, although the cache still merges older reports |
| `CallConvergence.RunOnCourse` | pkg/orchestrator/orchestrator.go:407-470 | with observations and single calls of all pods interleaved, complete views, effective Redis commands and any pods unhealthy, no-promote or witnesses: from any quiet point on only the oldest healthy master (or else the oldest healthy pod), if it may lead, is on the way up, it is never on the way down, and nobody else is a new master |
| `CallConvergence.ConvergesCallByCall` | pkg/orchestrator/orchestrator.go:405-470 | in every such interleaving, once every pod has observed and no call is pending, that pod is the only master |
| `CallConvergence.ConvergedForGood` | pkg/orchestrator/orchestrator.go:405-470 | and it is the only master at every later point, whatever calls are pending then |
| `CallConvergence.CallRoundLeavesAtMostOne` | pkg/orchestrator/orchestrator.go:734-828 | whoever may lead: once every pod has observed and nothing is pending there is no healthy master, or exactly one and it may stay |
| `Refinement.CallByCallConvergesIff` | pkg/orchestrator/orchestrator.go:405-470 | every interleaving of observations and calls in which each pod observes twice, with nothing pending in between and at the end, leaves exactly one healthy master if and only if the oldest healthy master may lead or the oldest healthy pod may |
| `Refinement.SyncStateIsObserveThenFinish` | pkg/orchestrator/orchestrator.go:230-274 | what the orchestrator's sync promises is an observation followed by its calls run to the end, for all call outcomes |
| `Refinement.SyncIsObserveThenFinish` | pkg/orchestrator/orchestrator.go:230-274 | one step of the atomic system is the same, with complete views and succeeding calls |
| `Refinement.ScheduleAsSteps` | pkg/orchestrator/orchestrator.go:230-274 | every schedule of atomic syncs is one of the interleaved runs |
| `Convergence.SyncMovesMasters` | pkg/orchestrator/orchestrator.go:407-470 | with complete views, one sync moves the set of healthy masters as a small function of that set |
| `Convergence.ChoosesDemoteIff` | pkg/orchestrator/orchestrator.go:796-812 | with complete views a master steps down exactly when it is no-promote, unhealthy or not the oldest master |
| `Convergence.OthersDrain` | pkg/orchestrator/orchestrator.go:796-812 | while the oldest master may stay, a schedule removes exactly the other masters that sync |
| `Convergence.OldestTakesOver` | pkg/orchestrator/orchestrator.go:544-558 | with no master, a schedule ends with the oldest healthy pod as the only master if it may lead and syncs, else with none |
| `Convergence.Converges` | pkg/orchestrator/orchestrator.go:405-467 | from any roles, every schedule in which each healthy pod syncs ends with exactly one healthy master, the oldest initial one or else the oldest pod, and no further schedule changes that |
| `Convergence.ReachesTarget` | pkg/orchestrator/orchestrator.go:453-467 | the same with no-promote pods and witnesses around, as long as the pod it settles on may lead |
| `Convergence.RoundLeavesAtMostOne` | pkg/orchestrator/orchestrator.go:734-828 | with no-promote pods and witnesses allowed: after every pod has synced there is no healthy master, or exactly one and it may stay |
| `Convergence.ConvergesIff` | pkg/orchestrator/orchestrator.go:405-470 | two rounds of every schedule end with exactly one healthy master if and only if the oldest healthy master may lead or the oldest healthy pod may |
| `LabelConvergence.UnhealthyLosesRole` | pkg/orchestrator/orchestrator.go:637-645 | a pod whose ping fails while INFO answers never gains the role and loses it at its first sync that sees a healthy pod |
| `LabelConvergence.LabelsConverge` | pkg/orchestrator/orchestrator.go:622-634 | from "labelled implies master", two rounds leave exactly the surviving master labelled, and nobody else master |
| `Failover.NoPromotionWhileRemembered` | pkg/orchestrator/orchestrator.go:457-463 | a survivor does not promote while its cache holds a healthy master's report at most 60 s old |
| `Failover.TakesOverIff` | pkg/orchestrator/orchestrator.go:472-558 | with no live master, a survivor takes over exactly when it is the oldest healthy survivor, may lead, and every healthy pod it still remembers is a younger replica |
| `Failover.FailsOver` | pkg/orchestrator/orchestrator.go:384-403 | in every schedule with complete live views only the oldest healthy survivor ever leads, and if it may lead it does for good from its first sync later than 60 s after the last report of the dead |
| `Failover.MastersGone` | pkg/orchestrator/orchestrator.go:384-403 | when pods are gone, every master among them, what the others remember of them is no newer than that and names nobody wrongly, so the failover invariant holds from there |
| `Failover.TimedFailover` | pkg/orchestrator/orchestrator.go:457-580 | from a run before the loss of all masters, alone or with other pods, through every schedule after it: nobody but the oldest healthy survivor ever leads, and if it may lead it is the one master once it has synced more than 60 s after the loss |
| `Partition.KeeperLeadsThroughout` | pkg/orchestrator/orchestrator.go:734-812 | a master cut off with part of the cluster stays that part's only master on every schedule, although it still remembers the others |
| `Partition.PartitionHeals` | pkg/orchestrator/orchestrator.go:766-812 | two converged groups that reconnect, whatever they still remember of each other, end on every schedule with the older master alone, which holds the role at every point on the way |
| `Partition.PartitionedThenHealed` | pkg/orchestrator/orchestrator.go:384-403 | the whole story: a cluster runs to one master, splits, each side runs any schedule while remembering the other, and they reconnect. The master's side keeps it throughout; on the other side only the oldest healthy pod ever leads, and does once it has synced more than 60 s after the split and may lead; after the reconnection the older of the masters holds the role at every point and ends up alone |
| `RaftMode.SyncSettlesRole` | pkg/orchestrator/orchestrator.go:656-732 | after a sync a pod is master exactly when it saw itself lead and may lead |
| `RaftMode.SyncSettlesLabel` | pkg/orchestrator/orchestrator.go:672-732 | with succeeding calls a pod that leads and may lead ends as a labelled master, a master that does not ends as an unlabelled replica, and a replica that does not stays as it was |
| `RaftMode.MastersSawThemselvesLead` | pkg/orchestrator/orchestrator.go:656-732 | over any history of leadership changes, a pod that has synced is master exactly when it saw itself as leader at its latest sync and may lead |
| `RaftMode.StableLeaderOwnsMastership` | pkg/orchestrator/orchestrator.go:691-724 | once one leader is stable and every pod has synced since, the masters are exactly that leader, or nobody if it may not lead |
| `RaftMode.RoleFollowsLatestObservation` | pkg/orchestrator/orchestrator.go:656-732 | call by call: a Raft pod with nothing pending is master exactly when its latest observation said it leads and it may lead, whatever other pods did in between |
| `RaftMode.AgreedLeaderOwnsMastership` | pkg/orchestrator/orchestrator.go:656-732 | call by call: once all latest observations agree on the leader and nothing is pending, the masters are exactly that leader, or nobody if it may not lead |
| `Membership.RaftNode.HandleAddVoter` | pkg/election/raft_handlers.go:42-110 | every response and the new configuration: unchanged unless the node leads, the request is complete, the ID is new and the library accepts; an ID under eight bytes is added and gets no answer |
| `Membership.RaftNode.HandleAddNonvoter` | pkg/election/raft_handlers.go:115-182 | the same with non-voting suffrage |
| `Membership.MembershipKept` | pkg/election/raft_handlers.go:72-102 | any sequence of non-overlapping requests keeps IDs unique and extends the configuration: nobody is removed or changed |
| `Membership.AddedForGood` | pkg/election/raft_handlers.go:78-87 | after "added" the server is in every later configuration as requested, and later requests for its ID change nothing and answer "already member" |
| `Membership.OnlyLeadersChange` | pkg/election/raft_handlers.go:48-53 | a node that does not lead changes nothing |
| `Membership.HandledIsCheckThenChange` | pkg/election/raft_handlers.go:72-109 | an undisturbed handler is its check followed by its change |
| `Membership.OverlapKeepsMembers` | pkg/election/raft_handlers.go:72-109 | under every interleaving of the handlers' checks and changes IDs stay unique, the configuration never shrinks, every server stays in place and no voter is demoted |
| `Membership.KeepsAddressIff` | pkg/election/raft_handlers.go:78-96 | a server keeps its address over a history of overlapping requests exactly when no request for its ID with another address that had already passed the check is applied |
| `Membership.OverlapOverwrites` | pkg/election/raft_handlers.go:78-96 | that does happen, for any two requests for one new ID: both pass the check, and the second overwrites the first one's address |
| `Bootstrap.DiscoverCluster` | pkg/election/raft_discovery.go:26-114 | the scan returns what the first listed peer that knows a leader says, with that peer's own address if it is the leader |
| `Bootstrap.DiscoverFindsIff` | pkg/election/raft_discovery.go:91-113 | discovery fails exactly when no listed peer knows a leader |
| `Bootstrap.DiscoverAsksFirst` | pkg/election/raft_discovery.go:91-110 | the answer is that of the first listed peer that knows a leader: the address it names, or its own if it names none, with the ID and state it reported |
| `Bootstrap.Network.JoinCluster` | pkg/election/raft_discovery.go:118-181 | the leader's configuration after the add-voter or, for a witness, add-nonvoter request |
| `Bootstrap.Network.AutoJoinCluster` | pkg/election/raft.go:245-313 | the bounded retry loop as a function of what each attempt meets; `Bootstrap.JoinsOnAttempt`, `Bootstrap.CrashesOnAttempt` and `Bootstrap.GivesUp` say what that is |
| `Bootstrap.JoinsOnAttempt` | pkg/election/raft.go:250-310 | a new node that is not to bootstrap, or a witness, joins the leader found at the first of its 18 attempts that is accepted, after any number of attempts that found nobody or were turned away, under its own suffrage |
| `Bootstrap.CrashesOnAttempt` | pkg/election/raft.go:285-288 | it crashes at the first attempt that finds a leader whose reported ID is under eight bytes |
| `Bootstrap.GivesUp` | pkg/election/raft.go:250-312 | it stops with nothing changed when it is in a cluster already or when all 18 attempts came to nothing |
| `Bootstrap.Network.Start` | pkg/election/raft.go:141-238 | bootstrap-or-join: which clusters exist after a start, and whether the process survives it |
| `Bootstrap.BootstrapsUnlessJoined` | pkg/election/raft.go:141-207 | a new node that is to bootstrap joins the leader it discovers, and creates a cluster with itself as only voter if it discovers none or is turned away |
| `Bootstrap.RestartTouchesNothing` | pkg/election/raft.go:141-238 | a node with state of its own, or without peers, touches no cluster |
| `Bootstrap.ClustersAreBootstraps` | pkg/election/raft.go:141-207 | with no assumption on the network: over any sequence of starts there are as many clusters as starts that may bootstrap and were accepted by no discovered leader; joining, retrying and crashing add none |
| `Bootstrap.SingleCluster` | pkg/election/raft.go:138-207 | serialised starts with reliable discovery and joining, in any number and mix, form at most one cluster |
| `Bootstrap.JoinersLandInOneCluster` | pkg/election/raft.go:229-238 | a node is in that one configuration, witnesses as non-voters, exactly when it has peers, it or an earlier node could bootstrap, and it did not crash on the ID of the leader it heard of |
| `Bootstrap.ShortIdIff` | pkg/election/raft_discovery.go:91-110 | a discovered leader's ID is too short for the log line exactly when the first peer that knows a leader is one that reports itself as leader without naming one |
| `Bootstrap.UnnamedLeaderCrashesJoiner` | pkg/election/raft.go:285-288 | such an answer takes an auto-joining node's process down and changes no cluster |
| `Bootstrap.MissedDiscoverySplits` | pkg/election/raft.go:164-207 | without reliable discovery any two bootstrapping nodes form two clusters |
| `Decimal.ParseFormat` | pkg/redis/client.go:136-143 | parsing a formatted 64-bit integer gives it back |
| `Decimal.ParseReadsValue` | pkg/redis/client.go:136-143 | digits parse to their value, with an optional sign, exactly within the 64-bit range |
| `Decimal.ParseAppends` | pkg/redis/client.go:136-143 | the value of digits is positional: one more digit multiplies by ten and adds it |
| `Decimal.ParsesOnlyNumbers` | pkg/redis/client.go:136-143 | nothing but digits with an optional sign parses |
| `Decimal.FormatIsDecimal` | pkg/auth/auth.go:40-40 | printing is the usual decimal notation |
| `ReplicationInfo.ParseReplicationInfo` | pkg/redis/client.go:114-155 | the loop computes the fold of the recognised lines, or the missing-role error; the rows below say what each line means |
| `ReplicationInfo.ReadsEachKey` | pkg/redis/client.go:131-147 | a role line followed by a line under any other of the five keys, each written out, gives the record with exactly those two fields |
| `ReplicationInfo.TextKeys` | pkg/redis/client.go:132-145 | after any text, a `role`, `master_host` or `master_link_status` line sets its own field and no other |
| `ReplicationInfo.NumericKeys` | pkg/redis/client.go:136-143 | after any text, a `master_port` or `connected_slaves` line sets its own field to the number, and nothing if it is no number |
| `ReplicationInfo.BadPortLeavesGoodOne` | pkg/redis/client.go:136-139 | a port that is no number after a good one leaves the good one |
| `ReplicationInfo.RoleIsRequired` | pkg/redis/client.go:149-152 | a text without a role, or with an empty one, is an error |
| `ReplicationInfo.IgnoredLine` | pkg/redis/client.go:119-126 | after any text, a blank line, a comment or a line without a colon changes nothing |
| `ReplicationInfo.UnknownKey` | pkg/redis/client.go:131-146 | nor does a line under a key other than those five |
| `ReplicationInfo.PaddedLineReads` | pkg/redis/client.go:128-129 | blanks around a key and its value do not matter |
| `ReplicationInfo.LinesOfConcat` | pkg/redis/client.go:115-115 | splitting commutes with joining two texts by CRLF, for all texts |
| `ReplicationInfo.LastWins` | pkg/redis/client.go:118-147 | each field holds what the last recognised line for its key says, else what was there before |
| `ReplicationInfo.BlocksOverlay` | pkg/redis/client.go:118-147 | two blocks joined by CRLF: the second's recognised fields overlay the first's, unparsable integers leave earlier values |
| `ReplicationInfo.NoiseIgnored` | pkg/redis/client.go:119-126 | comment, blank, colon-less and unknown-key lines change nothing at the start, at the end or in between |
| `ReplicationInfo.RoundTrip` | pkg/redis/client.go:114-155 | parsing a rendered block gives the record back, for every non-empty role and all trimmed values without a line end |
| `Auth.MessagesEqualIff` | pkg/auth/auth.go:98-106 | for all inputs two signed messages agree exactly when the timestamps do and "method:path" reads the same |
| `Auth.MessageInjective` | pkg/auth/auth.go:98-106 | hence the message is injective for colon-free methods (tokens, sections 9.1 and 5.6.2 of RFC 9110) |
| `Auth.ColonInMethodCollides` | pkg/auth/auth.go:102-102 | and not for methods with a colon |
| `Auth.WindowExactIff` | pkg/auth/auth.go:67-74 | for all int64 clocks: the nanosecond comparison answers "at most 30 s apart" correctly exactly when the distance is at most 9223372036 s or the wrapped product is again above the skew |
| `Auth.WindowFailsBeyond` | pkg/auth/auth.go:72-72 | from the next second to 18446744073 s the second case never applies, so the comparison fails there |
| `Auth.Authenticator.SignRequest` | pkg/auth/auth.go:32-46 | the two headers set on the request, timestamp and keyed hash of "method:path:timestamp", or none without a secret |
| `Auth.Authenticator.ValidateRequest` | pkg/auth/auth.go:48-86 | accepts exactly when no secret is set, or the timestamp header parses to a time in the window and the signature header is the keyed hash of "method:path:timestamp" for this request; which error for which failure |
| `Auth.OnlySignedPass` | pkg/auth/auth.go:55-83 | with a secret set, a request that passes carries a timestamp and the keyed hash of this very method, path and timestamp |
| `Auth.UnsignedIsRejected` | pkg/auth/auth.go:55-83 | for a hash that is never empty, a request without a signature or without a timestamp is turned away |
| `Auth.SigningAgrees` | pkg/auth/auth.go:39-83 | a signed request validates under the same secret exactly when the clocks differ by at most 30 s, for clocks up to 9223372036 s apart, and beyond that exactly when the wrapped difference passes |
| `Auth.SignatureBindsRequest` | pkg/auth/auth.go:76-83 | if the keyed hash separates messages, a signature lets no request with another method or path through |

## Left out

- HTTP servers and clients, JSON, contexts, timeouts, tickers and goroutines: replies that arrive or do not, and a clock parameter, stand for them.
- The Kubernetes API beyond the pod label as one boolean; the Get and Update of a label change are one call.
- Pod crashes and restarts other than pods that are gone or cut off (`Failover.dfy`, `Partition.dfy`); a restart with a new startup time is not modelled.
- PodState's IP and namespace, error texts, logging and `getElectionReason`. Debug mode is off: its log lines slice eight bytes off IDs as the modelled ones do.
- hashicorp/raft itself, its storage and snapshots: leadership is an oracle, the configuration a list of servers.
- `RaftStrategy.ElectLeader` and `GetLeader` lookups: reconciliation only asks `IsLeader`, and uses the leader's name for logging.
- The host and port splitting of peer addresses, LoadBalancer discovery and `matchesSelectorWithPodName`: simple code with no state.
- Flag parsing, configuration structs, manifests and scripts.
- Cryptographic strength: the keyed hash is an arbitrary function.
- Convergence.Converges: an unhealthy pod's health does not change during a schedule, because recovery would restart the argument from the new state.
- Election.SortStates: Go switches to other algorithms on long slices; only the contract they share is used elsewhere.
