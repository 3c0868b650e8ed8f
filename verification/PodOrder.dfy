/** The election order: startup time, then pod name, then pod UID.

    Go compares strings byte by byte; UTF-8 keeps code-point order, so comparing
    characters gives the same order. Dafny's own `<` on strings is the prefix
    order and is not used. */
module PodOrder {

  datatype Identity = Identity(startup: int, name: string, uid: string)

  // Go's `a < b` on strings.
  predicate StringLess(a: string, b: string)
  {
    b != [] && (a == [] || a[0] < b[0] || (a[0] == b[0] && StringLess(a[1..], b[1..])))
  }

  // The same with no recursion: after a common start, a ends or has the smaller character.
  ghost predicate Precedes(a: string, b: string)
  {
    exists i :: 0 <= i <= |a| && i < |b| && a[..i] == b[..i] && (i == |a| || a[i] < b[i])
  }

  lemma {:induction false} StringLessIff(a: string, b: string)
    ensures StringLess(a, b) <==> Precedes(a, b)
  {
    if a == [] || b == [] || a[0] != b[0] {
      assert forall i :: 0 < i <= |a| && i < |b| ==> a[..i][0] == a[0] && b[..i][0] == b[0];
      assert a[..0] == b[..0];
    } else {
      StringLessIff(a[1..], b[1..]);
      if Precedes(a[1..], b[1..]) {
        var i :| 0 <= i < |a| && i < |b[1..]| && a[1..][..i] == b[1..][..i] && (i == |a[1..]| || a[1..][i] < b[1..][i]);
        assert a[..i + 1] == [a[0]] + a[1..][..i] && b[..i + 1] == [b[0]] + b[1..][..i];
        assert Precedes(a, b);
      }
      if Precedes(a, b) {
        var i :| 0 <= i <= |a| && i < |b| && a[..i] == b[..i] && (i == |a| || a[i] < b[i]);
        assert i > 0;
        assert a[1..][..i - 1] == a[..i][1..] && b[1..][..i - 1] == b[..i][1..];
        assert Precedes(a[1..], b[1..]);
      }
    }
  }

  // The comparator written out at each of the three sort sites.
  predicate Older(a: Identity, b: Identity)
  {
    if a.startup == b.startup then
      if a.name == b.name then StringLess(a.uid, b.uid) else StringLess(a.name, b.name)
    else
      a.startup < b.startup
  }

  lemma {:induction false} StringTrichotomy(a: string, b: string)
    ensures a == b ==> !StringLess(a, b)
    ensures a != b ==> (StringLess(a, b) <==> !StringLess(b, a))
  {
    if a == [] || b == [] {
    } else if a[0] == b[0] {
      StringTrichotomy(a[1..], b[1..]);
      assert a == [a[0]] + a[1..] && b == [b[0]] + b[1..];
    }
  }

  lemma {:induction false} StringTransitive(a: string, b: string, c: string)
    requires StringLess(a, b) && StringLess(b, c)
    ensures StringLess(a, c)
  {
    if a != [] && a[0] == b[0] == c[0] {
      StringTransitive(a[1..], b[1..], c[1..]);
    }
  }

  // Exactly one of "older", "same identity", "younger" holds.
  lemma OlderTrichotomy(a: Identity, b: Identity)
    ensures a == b ==> !Older(a, b)
    ensures a != b ==> (Older(a, b) <==> !Older(b, a))
  {
    StringTrichotomy(a.name, b.name);
    StringTrichotomy(a.uid, b.uid);
  }

  lemma OlderTransitive(a: Identity, b: Identity, c: Identity)
    requires Older(a, b) && Older(b, c)
    ensures Older(a, c)
  {
    StringTrichotomy(a.name, a.name);
    if a.startup == b.startup == c.startup {
      if a.name == b.name == c.name {
        StringTransitive(a.uid, b.uid, c.uid);
      } else if a.name != b.name && b.name != c.name {
        StringTransitive(a.name, b.name, c.name);
        StringTrichotomy(a.name, b.name);
      }
    }
  }

  ghost predicate IsOldest(m: Identity, s: set<Identity>)
  {
    m in s && forall x :: x in s && x != m ==> Older(m, x)
  }

  // What the winner of an election is: nobody started earlier; of those that started
  // at the same time nobody's name comes first; of those with its name, nobody's UID.
  ghost predicate Earliest(m: Identity, s: set<Identity>)
  {
    && m in s
    && (forall x :: x in s ==> m.startup <= x.startup)
    && (forall x :: x in s && x.startup == m.startup ==> m.name == x.name || Precedes(m.name, x.name))
    && (forall x :: x in s && x.startup == m.startup && x.name == m.name ==> m.uid == x.uid || Precedes(m.uid, x.uid))
  }

  lemma OldestIsEarliest(m: Identity, s: set<Identity>)
    ensures IsOldest(m, s) <==> Earliest(m, s)
  {
    forall x | x in s && x != m
      ensures Older(m, x) <==>
              || m.startup < x.startup
              || (m.startup == x.startup && m.name != x.name && Precedes(m.name, x.name))
              || (m.startup == x.startup && m.name == x.name && Precedes(m.uid, x.uid))
    {
      StringLessIff(m.name, x.name);
      StringLessIff(m.uid, x.uid);
    }
  }

  // Every non-empty set of identities has an oldest member.
  lemma {:induction false} OldestExists(s: set<Identity>)
    requires s != {}
    ensures exists m :: IsOldest(m, s)
    decreases |s|
  {
    var x :| x in s;
    if s == {x} {
      assert IsOldest(x, s);
    } else {
      var rest := s - {x};
      assert s == rest + {x};
      OldestExists(rest);
      var m :| IsOldest(m, rest);
      OlderTrichotomy(m, x);
      if Older(m, x) {
        assert IsOldest(m, s);
      } else {
        forall y | y in s && y != x ensures Older(x, y) {
          if y != m { OlderTransitive(x, m, y); }
        }
        assert IsOldest(x, s);
      }
    }
  }

  ghost function Oldest(s: set<Identity>): (m: Identity)
    requires s != {}
    ensures IsOldest(m, s)
  {
    OldestExists(s);
    var m :| IsOldest(m, s);
    m
  }

  lemma OldestUnique(m: Identity, s: set<Identity>)
    requires IsOldest(m, s)
    ensures Oldest(s) == m
  {
    OlderTrichotomy(m, Oldest(s));
  }

  // Partition heal: the winner of a union is the older of the two winners.
  lemma OldestOfUnion(s: set<Identity>, t: set<Identity>)
    requires s != {} && t != {}
    ensures Oldest(s + t) == Oldest({Oldest(s), Oldest(t)})
  {
    var m := Oldest({Oldest(s), Oldest(t)});
    forall x | x in s + t && x != m ensures Older(m, x) {
      var w := if x in s then Oldest(s) else Oldest(t);
      if x != w && w != m { OlderTransitive(m, w, x); }
    }
    OldestUnique(m, s + t);
  }
}
