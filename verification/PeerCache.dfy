/** The 60-second peer cache: an incremental map against a function of the history. */
module PeerCache {
  import opened PodOrder
  import opened Reconciliation

  const STALE_AFTER: int := 60_000_000_000  // nanoseconds

  predicate Stale(st: PodState, now: int) { st.lastSeen < now - STALE_AFTER }

  // One updatePeerStates: store self, overwrite with the replies, sweep stale peers.
  function Merge(cache: Cache, self: string, local: PodState, replies: Cache, now: int): Cache
  {
    var merged := cache[self := local] + replies;
    map k | k in merged && (k == self || !Stale(merged[k], now)) :: merged[k]
  }

  // After a merge a peer is there exactly when its newest report is at most 60 seconds
  // old, and then with that report; the pod itself is always there.
  lemma MergeKeepsSixtySeconds(cache: Cache, self: string, local: PodState, replies: Cache, now: int, k: string)
    requires self !in replies
    ensures var merged := Merge(cache, self, local, replies, now);
            && self in merged && merged[self] == local
            && (k != self && k in replies ==>
                  (k in merged <==> now - replies[k].lastSeen <= 60_000_000_000) &&
                  (k in merged ==> merged[k] == replies[k]))
            && (k != self && k !in replies ==>
                  (k in merged <==> k in cache && now - cache[k].lastSeen <= 60_000_000_000) &&
                  (k in merged ==> merged[k] == cache[k]))
  {
  }

  // One sync as the cache sees it.
  datatype Round = Round(now: int, local: PodState, replies: Cache)

  function CacheAfter(self: string, h: seq<Round>): Cache
  {
    if h == [] then map[]
    else
      var r := h[|h| - 1];
      Merge(CacheAfter(self, h[..|h| - 1]), self, r.local, r.replies, r.now)
  }

  // The last reply ever received from each peer; nothing is ever deleted.
  function LastReplies(h: seq<Round>): Cache
  {
    if h == [] then map[] else LastReplies(h[..|h| - 1]) + h[|h| - 1].replies
  }

  // The simple form: own state, and each peer's last reply if it is not stale now.
  function FreshReplies(self: string, h: seq<Round>): Cache
    requires h != []
  {
    var last := LastReplies(h);
    var r := h[|h| - 1];
    Fresh(last, r.now)[self := r.local]
  }

  function Fresh(c: Cache, now: int): Cache { map k | k in c && !Stale(c[k], now) :: c[k] }

  predicate OwnNameNeverReplies(self: string, h: seq<Round>)
  {
    forall i :: 0 <= i < |h| ==> self !in h[i].replies
  }

  predicate ClockNeverGoesBack(h: seq<Round>)
  {
    forall i, j :: 0 <= i < j < |h| ==> h[i].now <= h[j].now
  }

  // Peer k's last reply came in round i and no sweep since then found it stale.
  ghost predicate KeptSince(h: seq<Round>, k: string, i: int)
  {
    && 0 <= i < |h| && k in h[i].replies
    && (forall j :: i < j < |h| ==> k !in h[j].replies)
    && (forall j :: i <= j < |h| ==> !Stale(h[i].replies[k], h[j].now))
  }

  // A round without a reply from k keeps what survives its own sweep.
  lemma KeptSinceStep(h: seq<Round>, k: string, i: int)
    requires h != [] && k !in h[|h| - 1].replies
    ensures KeptSince(h, k, i) <==> KeptSince(h[..|h| - 1], k, i) && !Stale(h[i].replies[k], h[|h| - 1].now)
  {
    var n := |h| - 1;
    var g := h[..n];
    if 0 <= i < n { assert forall j :: i <= j < n ==> g[j] == h[j]; }
  }

  // With no assumption on the clock: a peer is cached exactly when its last reply
  // survived every sweep since it arrived.
  lemma {:induction false} CachedIff(self: string, h: seq<Round>, k: string)
    requires OwnNameNeverReplies(self, h) && k != self
    ensures k in CacheAfter(self, h) <==> exists i :: KeptSince(h, k, i)
    ensures k in CacheAfter(self, h) ==>
              exists i :: KeptSince(h, k, i) && CacheAfter(self, h)[k] == h[i].replies[k]
  {
    if h == [] {
    } else {
      var n := |h| - 1;
      CachedIff(self, h[..n], k);
      if k in h[n].replies {
        if k in CacheAfter(self, h) { assert KeptSince(h, k, n); }
      } else {
        forall i ensures KeptSince(h, k, i) <==> KeptSince(h[..n], k, i) && !Stale(h[i].replies[k], h[n].now) {
          KeptSinceStep(h, k, i);
        }
      }
    }
  }

  // With a clock that never goes back, merging and deleting round by round equals
  // filtering the full reply history once.
  lemma {:induction false} CacheRefinesHistory(self: string, h: seq<Round>)
    requires h != [] && OwnNameNeverReplies(self, h) && ClockNeverGoesBack(h)
    ensures CacheAfter(self, h) == FreshReplies(self, h)
  {
    var n := |h| - 1;
    var g, r := h[..n], h[n];
    SelfHasNoReply(self, g);
    if g == [] {
      MergeFilters(map[], map[], self, r, r.now);
    } else {
      CacheRefinesHistory(self, g);
      MergeFilters(CacheAfter(self, g), LastReplies(g), self, r, h[n - 1].now);
    }
  }

  lemma MergeFilters(before: Cache, last: Cache, self: string, r: Round, earlier: int)
    requires self !in last && self !in r.replies && earlier <= r.now
    requires before - {self} == Fresh(last, earlier)
    ensures Merge(before, self, r.local, r.replies, r.now) == Fresh(last + r.replies, r.now)[self := r.local]
  {
    var left := Merge(before, self, r.local, r.replies, r.now);
    var right := Fresh(last + r.replies, r.now)[self := r.local];
    forall k | k != self && k !in r.replies
      ensures k in left <==> k in right
      ensures k in left ==> left[k] == right[k]
    {
      assert k in before <==> k in before - {self};
      assert k in before ==> before[k] == (before - {self})[k];
    }
    assert left.Keys == right.Keys;
  }

  lemma {:induction false} SelfHasNoReply(self: string, h: seq<Round>)
    requires OwnNameNeverReplies(self, h)
    ensures self !in LastReplies(h)
  {
    if h == [] {
    } else {
      SelfHasNoReply(self, h[..|h| - 1]);
    }
  }

  // The clock hypothesis is needed: a sweep at second 100 deletes a report from
  // second 30, which a clock set back to second 80 would call fresh.
  lemma ClockStepBackForgets()
    ensures exists self: string, h: seq<Round> ::
      && h != [] && OwnNameNeverReplies(self, h) && !ClockNeverGoesBack(h)
      && CacheAfter(self, h) != FreshReplies(self, h)
  {
    var s := 1_000_000_000;
    var me := PodState(Identity(0, "a", "a"), false, true, false, 0);
    var peer := PodState(Identity(1, "b", "b"), true, true, false, 30 * s);
    var r0, r1 := Round(100 * s, me, map["b" := peer]), Round(80 * s, me, map[]);
    var h := [r0, r1];
    assert h[..1] == [r0] && [r0][..0] == [];
    assert CacheAfter("a", [r0]) == Merge(map[], "a", me, map["b" := peer], 100 * s);
    assert "b" !in CacheAfter("a", [r0]);
    assert CacheAfter("a", h) == Merge(CacheAfter("a", [r0]), "a", me, map[], 80 * s);
    assert "b" !in CacheAfter("a", h);
    assert LastReplies([r0]) == map[] + map["b" := peer];
    assert LastReplies(h) == LastReplies([r0]) + map[];
    assert "b" in FreshReplies("a", h);
  }
}
