/** The in-place sort shared by the three election sites, and the deterministic
    strategy that stores its winner. */
module Election {
  import opened Wrappers
  import opened PodOrder
  import opened Reconciliation

  // No later element is older than an earlier one.
  ghost predicate Sorted(s: seq<PodState>)
  {
    forall i, j :: 0 <= i < j < |s| ==> NotAfter(s[i], s[j])
  }

  predicate NotAfter(a: PodState, b: PodState) { !Older(b.id, a.id) }

  lemma NotAfterTransitive(a: PodState, b: PodState, c: PodState)
    requires NotAfter(a, b) && NotAfter(b, c)
    ensures NotAfter(a, c)
  {
    OlderTrichotomy(a.id, b.id);
    OlderTrichotomy(b.id, c.id);
    OlderTrichotomy(a.id, c.id);
    if a.id != b.id && b.id != c.id { OlderTransitive(a.id, b.id, c.id); }
  }

  ghost function IdsOf(s: seq<PodState>): set<Identity> { set x | x in s :: x.id }

  // Sorted except possibly at position j, within the first n elements.
  ghost predicate SortedBut(s: seq<PodState>, n: nat, j: nat)
    requires n <= |s|
  {
    forall x, y :: 0 <= x < y < n && y != j ==> NotAfter(s[x], s[y])
  }

  ghost function Swapped(s: seq<PodState>, j: nat): seq<PodState>
    requires 0 < j < |s|
  {
    s[j - 1 := s[j]][j := s[j - 1]]
  }

  lemma SwapKeepsContents(s: seq<PodState>, j: nat)
    requires 0 < j < |s|
    ensures multiset(Swapped(s, j)) == multiset(s)
  {
    assert s == s[..j - 1] + [s[j - 1], s[j]] + s[j + 1..];
    assert Swapped(s, j) == s[..j - 1] + [s[j], s[j - 1]] + s[j + 1..];
  }

  lemma SwapSinks(s: seq<PodState>, n: nat, j: nat)
    requires n <= |s| && 0 < j < n && SortedBut(s, n, j) && Older(s[j].id, s[j - 1].id)
    ensures SortedBut(Swapped(s, j), n, j - 1)
  {
    var t := Swapped(s, j);
    OlderTrichotomy(s[j].id, s[j - 1].id);
    forall x, y | 0 <= x < y < n && y != j - 1 ensures NotAfter(t[x], t[y]) {
      assert x < j - 1 && y == j ==> NotAfter(s[x], s[j - 1]);
      assert x < j - 1 && y > j ==> NotAfter(s[x], s[y]);
      assert x == j - 1 && y > j ==> NotAfter(s[j], s[y]);
      assert x == j && y > j ==> NotAfter(s[j - 1], s[y]);
      assert y < j - 1 || x > j ==> NotAfter(s[x], s[y]);
    }
  }

  lemma SettledIsSorted(s: seq<PodState>, n: nat, j: nat)
    requires j < n <= |s| && SortedBut(s, n, j)
    requires j == 0 || NotAfter(s[j - 1], s[j])
    ensures Sorted(s[..n])
  {
    forall x, y | 0 <= x < y < n ensures NotAfter(s[x], s[y]) {
      if y == j && x < j - 1 { NotAfterTransitive(s[x], s[j - 1], s[j]); }
    }
  }

  // sort.Slice with the three-key comparator, as the insertion sort it is on short slices.
  method SortStates(a: array<PodState>)
    modifies a
    ensures Sorted(a[..])
    ensures multiset(a[..]) == multiset(old(a[..]))
  {
    var i := 1;
    while i < a.Length
      invariant a.Length > 0 ==> 1 <= i <= a.Length && Sorted(a[..i])
      invariant multiset(a[..]) == multiset(old(a[..]))
    {
      var j := i;
      while j > 0 && Older(a[j].id, a[j - 1].id)
        invariant 0 <= j <= i
        invariant SortedBut(a[..], i + 1, j)
        invariant multiset(a[..]) == multiset(old(a[..]))
      {
        ghost var before := a[..];
        SwapKeepsContents(before, j);
        SwapSinks(before, i + 1, j);
        a[j - 1], a[j] := a[j], a[j - 1];
        assert a[..] == Swapped(before, j);
        j := j - 1;
      }
      SettledIsSorted(a[..], i + 1, j);
      assert a[..i + 1] == a[..][..i + 1];
      i := i + 1;
    }
    assert a[..] == a[..a.Length];
  }

  // The head of any sorted permutation carries the unique oldest identity, so the
  // winner does not depend on the order the candidates came in.
  lemma SortedHeadIsOldest(original: seq<PodState>, sorted: seq<PodState>)
    requires Sorted(sorted) && multiset(sorted) == multiset(original) && original != []
    ensures sorted != [] && sorted[0] in original
    ensures IsOldest(sorted[0].id, IdsOf(original))
    ensures Oldest(IdsOf(original)) == sorted[0].id
  {
    assert |sorted| == |multiset(sorted)| == |original|;
    assert sorted[0] in multiset(sorted);
    forall x | x in original && x.id != sorted[0].id ensures Older(sorted[0].id, x.id) {
      assert x in multiset(sorted);
      var i :| 0 <= i < |sorted| && sorted[i] == x;
      OlderTrichotomy(x.id, sorted[0].id);
    }
    OldestUnique(sorted[0].id, IdsOf(original));
  }

  // Two arrival orders of the same candidates elect the same identity.
  lemma ElectionIgnoresOrder(s: seq<PodState>, t: seq<PodState>, s': seq<PodState>, t': seq<PodState>)
    requires s != [] && multiset(s) == multiset(t)
    requires Sorted(s') && multiset(s') == multiset(s)
    requires Sorted(t') && multiset(t') == multiset(t)
    ensures s' != [] && t' != [] && s'[0].id == t'[0].id
  {
    assert |t| == |multiset(t)| == |s|;
    SortedHeadIsOldest(s, s');
    SortedHeadIsOldest(s, t');
  }

  // The pod that every strategy electing from these candidates settles on.
  ghost predicate Wins(candidates: seq<PodState>, uid: string)
  {
    exists x :: x in candidates && x.id.uid == uid && IsOldest(x.id, IdsOf(candidates))
  }

  ghost predicate DistinctUids(s: seq<PodState>)
  {
    forall x, y :: x in s && y in s && x.id.uid == y.id.uid ==> x.id == y.id
  }

  // Exactly one pod wins, and two arrival orders agree on it.
  lemma OneWinner(s: seq<PodState>, t: seq<PodState>) returns (winner: PodState)
    requires s != [] && multiset(s) == multiset(t) && DistinctUids(s)
    ensures winner in s && winner in t
    ensures forall x :: x in s ==> (Wins(s, x.id.uid) <==> x.id == winner.id)
    ensures forall x :: x in s ==> (Wins(t, x.id.uid) <==> x.id == winner.id)
  {
    assert s[0].id in IdsOf(s);
    var oldest := Oldest(IdsOf(s));
    winner :| winner in s && winner.id == oldest;
    assert forall x :: x in s <==> x in multiset(s);
    assert forall x :: x in t <==> x in multiset(t);
    assert IdsOf(s) == IdsOf(t);
    forall x | IsOldest(x, IdsOf(s)) ensures x == oldest { OlderTrichotomy(x, oldest); }
  }

  class DeterministicStrategy {
    const localUid: string
    var currentLeader: Option<PodState>
    ghost var candidates: seq<PodState>  // those of the latest election that had any

    // The stored leader is the oldest of the latest candidates.
    ghost predicate Valid()
      reads this
    {
      && (currentLeader.None? <==> candidates == [])
      && (currentLeader.Some? ==>
            currentLeader.value in candidates && IsOldest(currentLeader.value.id, IdsOf(candidates)))
    }

    constructor (uid: string)
      ensures Valid() && localUid == uid && candidates == []
    {
      localUid := uid;
      currentLeader := None;
      candidates := [];
    }

    // None stands for the "no healthy pods" error, which leaves the stored leader alone.
    method ElectLeader(allStates: array<PodState>) returns (elected: Option<PodState>)
      requires Valid()
      modifies this, allStates
      ensures Valid()
      ensures Sorted(allStates[..]) && multiset(allStates[..]) == multiset(old(allStates[..]))
      ensures allStates.Length == 0 ==>
                elected == None && currentLeader == old(currentLeader) && candidates == old(candidates)
      ensures allStates.Length > 0 ==>
                && elected.Some? && currentLeader == elected && candidates == old(allStates[..])
                && elected.value in candidates && IsOldest(elected.value.id, IdsOf(candidates))
                && Earliest(elected.value.id, IdsOf(candidates))
                && forall x :: x in old(allStates[..]) ==> elected.value.id.startup <= x.id.startup
    {
      if allStates.Length == 0 {
        return None;
      }
      candidates := allStates[..];
      SortStates(allStates);
      SortedHeadIsOldest(old(allStates[..]), allStates[..]);
      elected := Some(allStates[0]);
      currentLeader := elected;
      OldestIsEarliest(elected.value.id, IdsOf(candidates));
    }

    // Among the latest candidates, the local pod is the winner.
    method IsLeader() returns (leads: bool)
      requires Valid()
      ensures leads <==> Wins(candidates, localUid)
    {
      leads := currentLeader.Some? && currentLeader.value.id.uid == localUid;
      if x :| x in candidates && x.id.uid == localUid && IsOldest(x.id, IdsOf(candidates)) {
        OlderTrichotomy(x.id, currentLeader.value.id);
      }
    }

    // Name and UID of the winner; None stands for the "no leader elected" error.
    method GetLeader() returns (leader: Option<(string, string)>)
      requires Valid()
      ensures leader.None? <==> candidates == []
      ensures leader.Some? ==>
                && Wins(candidates, leader.value.1)
                && exists x :: x in candidates && IsOldest(x.id, IdsOf(candidates)) &&
                               leader.value == (x.id.name, x.id.uid)
    {
      match currentLeader
      case None => leader := None;
      case Some(st) => leader := Some((st.id.name, st.id.uid));
    }
  }
}
