/** The add-voter and add-nonvoter handlers as guarded updates of the Raft server
    configuration. The Raft library's own AddVoter and AddNonvoter overwrite a server
    with the same ID; the handlers' guard is what keeps that from happening. */
module Membership {
  import opened Wrappers
  import opened Reconciliation

  datatype Suffrage = Voter | Nonvoter

  datatype Server = Server(id: string, address: string, suffrage: Suffrage)

  type Configuration = seq<Server>

  // One request as it meets the node: None is a body that does not decode.
  datatype Attempt = Attempt(
    suffrage: Suffrage,
    body: Option<(string, string)>,  // ID and address
    started: bool,                   // the Raft library is initialised
    leading: bool,
    configOk: bool,                  // reading the configuration succeeds
    add: Outcome)                    // what the library does with the change

  // Dropped: the handler panics on its closing log line, which slices eight bytes off
  // the ID, and the connection is closed without an answer.
  datatype Response = Unavailable | BadRequest | Failed | AlreadyMember | Added | Dropped

  const LOGGED_ID_BYTES: nat := 8

  predicate Success(r: Response) { r == AlreadyMember || r == Added }

  predicate HasId(c: Configuration, id: string) { exists i :: 0 <= i < |c| && c[i].id == id }

  ghost predicate UniqueIds(c: Configuration)
  {
    forall i, j :: 0 <= i < j < |c| ==> c[i].id != c[j].id
  }

  // The library: a known ID gets the new address, and the new suffrage unless that
  // would demote a voter; an unknown ID is appended.
  function Upsert(c: Configuration, s: Server): Configuration
  {
    if c == [] then [s]
    else if c[0].id != s.id then [c[0]] + Upsert(c[1..], s)
    else if s.suffrage == Nonvoter then [c[0].(address := s.address)] + c[1..]
    else [s] + c[1..]
  }

  // The answer once the library has been asked.
  function Answer(id: string, add: Outcome): Response
  {
    if |id| < LOGGED_ID_BYTES then Dropped else if add == Done then Added else Failed
  }

  // What the handlers promise.
  function Handled(c: Configuration, a: Attempt): (Response, Configuration)
  {
    if !a.started then (Unavailable, c)
    else if !a.leading || a.body.None? || a.body.value.0 == "" || a.body.value.1 == "" then (BadRequest, c)
    else if !a.configOk then (Failed, c)
    else if HasId(c, a.body.value.0) then (AlreadyMember, c)
    else
      var c' := if a.add == Refused then c else c + [Server(a.body.value.0, a.body.value.1, a.suffrage)];
      (Answer(a.body.value.0, a.add), c')
  }

  lemma {:induction false} UpsertNew(c: Configuration, s: Server)
    requires !HasId(c, s.id)
    ensures Upsert(c, s) == c + [s]
  {
    if c == [] {
    } else {
      forall i | 0 <= i < |c[1..]| ensures c[1..][i].id != s.id {
        assert c[1..][i] == c[i + 1];
      }
      UpsertNew(c[1..], s);
    }
  }

  // The request reaches the leader and names an ID and an address.
  predicate Complete(a: Attempt)
  {
    a.leading && a.body.Some? && a.body.value.0 != "" && a.body.value.1 != ""
  }

  // The library is asked to add the server.
  predicate Joins(c: Configuration, a: Attempt)
  {
    a.started && Complete(a) && a.configOk && !HasId(c, a.body.value.0)
  }

  class RaftNode {
    var servers: Configuration

    constructor (c: Configuration) ensures servers == c { servers := c; }

    method HandleAddVoter(a: Attempt) returns (r: Response)
      requires a.suffrage == Voter
      modifies this
      ensures (r, servers) == Handled(old(servers), a)
      ensures r == Unavailable <==> !a.started
      ensures r == BadRequest <==> a.started && !Complete(a)
      ensures r == AlreadyMember <==>
                Complete(a) && a.started && a.configOk && HasId(old(servers), a.body.value.0)
      ensures r == Added <==> Joins(old(servers), a) && a.add == Done && |a.body.value.0| >= 8
      ensures r == Dropped <==> Joins(old(servers), a) && |a.body.value.0| < 8
      ensures servers ==
              if Joins(old(servers), a) && a.add != Refused
              then old(servers) + [Server(a.body.value.0, a.body.value.1, Voter)]
              else old(servers)
    {
      r := Handle(a);
    }

    method HandleAddNonvoter(a: Attempt) returns (r: Response)
      requires a.suffrage == Nonvoter
      modifies this
      ensures (r, servers) == Handled(old(servers), a)
      ensures r == Unavailable <==> !a.started
      ensures r == BadRequest <==> a.started && !Complete(a)
      ensures r == AlreadyMember <==>
                Complete(a) && a.started && a.configOk && HasId(old(servers), a.body.value.0)
      ensures r == Added <==> Joins(old(servers), a) && a.add == Done && |a.body.value.0| >= 8
      ensures r == Dropped <==> Joins(old(servers), a) && |a.body.value.0| < 8
      ensures servers ==
              if Joins(old(servers), a) && a.add != Refused
              then old(servers) + [Server(a.body.value.0, a.body.value.1, Nonvoter)]
              else old(servers)
    {
      r := Handle(a);
    }

    // The body the two handlers share.
    method Handle(a: Attempt) returns (r: Response)
      modifies this
      ensures (r, servers) == Handled(old(servers), a)
    {
      if !a.started {
        return Unavailable;
      }
      if !a.leading || a.body.None? || a.body.value.0 == "" || a.body.value.1 == "" {
        return BadRequest;
      }
      if !a.configOk {
        return Failed;
      }
      var id := a.body.value.0;
      for i := 0 to |servers|
        invariant servers == old(servers)
        invariant forall j :: 0 <= j < i ==> servers[j].id != id
      {
        if servers[i].id == id {
          return AlreadyMember;
        }
      }
      var server := Server(id, a.body.value.1, a.suffrage);
      UpsertNew(servers, server);
      if a.add != Refused {
        servers := Upsert(servers, server);
      }
      if |id| < LOGGED_ID_BYTES {
        return Dropped;
      }
      r := if a.add == Done then Added else Failed;
    }
  }

  // ------------------------------------------------------------ over whole histories

  function AfterAll(c: Configuration, h: seq<Attempt>): Configuration
  {
    if h == [] then c else Handled(AfterAll(c, h[..|h| - 1]), h[|h| - 1]).1
  }

  // Any sequence of requests that do not overlap keeps IDs unique and keeps every
  // server where it was, with the address and suffrage it was first added with.
  lemma {:induction false} MembershipKept(c: Configuration, h: seq<Attempt>)
    requires UniqueIds(c)
    ensures UniqueIds(AfterAll(c, h)) && c <= AfterAll(c, h)
  {
    if h == [] {
    } else {
      MembershipKept(c, h[..|h| - 1]);
    }
  }

  lemma {:induction false} HistorySplits(c: Configuration, h: seq<Attempt>, g: seq<Attempt>)
    ensures AfterAll(c, h + g) == AfterAll(AfterAll(c, h), g)
  {
    if g == [] {
      assert h + g == h;
    } else {
      assert (h + g)[..|h + g| - 1] == h + g[..|g| - 1];
      HistorySplits(c, h, g[..|g| - 1]);
    }
  }

  // Once a request was answered "added", its server is in every later configuration as
  // asked for, and every later request for that ID changes nothing.
  lemma AddedForGood(c: Configuration, before: seq<Attempt>, a: Attempt, after: seq<Attempt>, again: Attempt)
    requires UniqueIds(c) && Handled(AfterAll(c, before), a).0 == Added
    requires again.body.Some? && again.body.value.0 == a.body.value.0
    ensures a.body.Some?
    ensures var final := AfterAll(c, before + [a] + after);
            && Server(a.body.value.0, a.body.value.1, a.suffrage) in final
            && Handled(final, again).1 == final
            && (again.started && again.leading && again.configOk && again.body.value.1 != "" ==>
                  Handled(final, again).0 == AlreadyMember)
  {
    var c1 := AfterAll(c, before);
    var c2 := Handled(c1, a).1;
    var final := AfterAll(c, before + [a] + after);
    MembershipKept(c, before);
    HistorySplits(c, before, [a]);
    assert [a][..0] == [] && AfterAll(c1, []) == c1 && AfterAll(c1, [a]) == c2;
    HistorySplits(c, before + [a], after);
    MembershipKept(c2, after);
    assert c2[|c1|] == Server(a.body.value.0, a.body.value.1, a.suffrage) && final[|c1|] == c2[|c1|];
  }

  // A node that does not lead changes nothing.
  lemma {:induction false} OnlyLeadersChange(c: Configuration, h: seq<Attempt>)
    requires forall i :: 0 <= i < |h| ==> !h[i].leading
    ensures AfterAll(c, h) == c
  {
    if h == [] {
    } else {
      OnlyLeadersChange(c, h[..|h| - 1]);
    }
  }

  // --------------------------------------------------------- overlapping requests

  // A handler checks the configuration and later asks the library for the change;
  // between the two, other handlers may do either. `pending` holds the requests that
  // passed the check, by an arbitrary ticket.
  datatype Service = Service(config: Configuration, pending: map<nat, Server>)

  datatype Event =
    | Check(ticket: nat, attempt: Attempt)
    | Change(ticket: nat, add: Outcome)

  // The server an attempt asks for, if the handler gets as far as asking the library.
  function Passes(c: Configuration, a: Attempt): Option<Server>
  {
    if !a.started || !a.leading || a.body.None? || a.body.value.0 == "" || a.body.value.1 == "" || !a.configOk then None
    else if HasId(c, a.body.value.0) then None
    else Some(Server(a.body.value.0, a.body.value.1, a.suffrage))
  }

  predicate Possible(s: Service, e: Event)
  {
    if e.Check? then e.ticket !in s.pending else e.ticket in s.pending
  }

  function Next(s: Service, e: Event): Service
    requires Possible(s, e)
  {
    match e
    case Check(ticket, a) =>
      var asked := Passes(s.config, a);
      if asked.None? then s else s.(pending := s.pending[ticket := asked.value])
    case Change(ticket, add) =>
      Service(if add == Refused then s.config else Upsert(s.config, s.pending[ticket]), s.pending - {ticket})
  }

  // A history of overlapping requests, with every state on the way.
  ghost predicate History(h: seq<Service>, es: seq<Event>)
  {
    && |h| == |es| + 1
    && forall i :: 0 <= i < |es| ==> Happens(h, es, i)
  }

  ghost predicate Happens(h: seq<Service>, es: seq<Event>, i: int)
    requires |h| == |es| + 1 && 0 <= i < |es|
  {
    Possible(h[i], es[i]) && h[i + 1] == Next(h[i], es[i])
  }

  // A check directly followed by its change is what one undisturbed handler does.
  lemma HandledIsCheckThenChange(s: Service, ticket: nat, a: Attempt)
    requires ticket !in s.pending
    ensures Passes(s.config, a).None? ==>
              Next(s, Check(ticket, a)).config == Handled(s.config, a).1 && ticket !in Next(s, Check(ticket, a)).pending
    ensures Passes(s.config, a).Some? ==>
              && Possible(Next(s, Check(ticket, a)), Change(ticket, a.add))
              && Next(Next(s, Check(ticket, a)), Change(ticket, a.add)).config == Handled(s.config, a).1
  {
    var asked := Passes(s.config, a);
    if asked.Some? { UpsertNew(s.config, asked.value); }
  }

  // What overlapping changes still keep: each server's place and ID, and a voter's vote.
  ghost predicate Extends(c: Configuration, c': Configuration)
  {
    && |c| <= |c'|
    && forall i :: 0 <= i < |c| ==> c'[i].id == c[i].id && (c[i].suffrage == Voter ==> c'[i].suffrage == Voter)
  }

  lemma {:induction false} UpsertAt(c: Configuration, s: Server, n: nat)
    requires UniqueIds(c) && n < |c|
    ensures n < |Upsert(c, s)|
    ensures Upsert(c, s)[n] ==
            if c[n].id != s.id then c[n]
            else if s.suffrage == Nonvoter then c[n].(address := s.address)
            else s
  {
    if c[0].id != s.id {
      if n > 0 {
        assert c[1..][n - 1] == c[n];
        UpsertAt(c[1..], s, n - 1);
        assert Upsert(c, s)[n] == Upsert(c[1..], s)[n - 1];
      }
    } else if n > 0 {
      assert c[n].id != c[0].id;
    }
  }

  lemma {:induction false} UpsertKnown(c: Configuration, s: Server)
    requires HasId(c, s.id)
    ensures |Upsert(c, s)| == |c|
  {
    if c[0].id == s.id {
    } else {
      var i :| 0 <= i < |c| && c[i].id == s.id;
      assert c[1..][i - 1].id == s.id;
      UpsertKnown(c[1..], s);
    }
  }

  lemma UpsertExtends(c: Configuration, s: Server)
    requires UniqueIds(c)
    ensures Extends(c, Upsert(c, s)) && UniqueIds(Upsert(c, s))
  {
    if HasId(c, s.id) {
      UpsertKnown(c, s);
      forall i | 0 <= i < |c|
        ensures Upsert(c, s)[i].id == c[i].id && (c[i].suffrage == Voter ==> Upsert(c, s)[i].suffrage == Voter)
      {
        UpsertAt(c, s, i);
      }
    } else {
      UpsertNew(c, s);
    }
  }

  // Under every interleaving of checks and changes IDs stay unique, the configuration
  // never shrinks, every server stays in place and no voter is demoted.
  lemma {:induction false} OverlapKeepsMembers(h: seq<Service>, es: seq<Event>, i: int, j: int)
    requires History(h, es) && 0 <= i <= j < |h| && UniqueIds(h[i].config)
    ensures UniqueIds(h[j].config) && Extends(h[i].config, h[j].config)
  {
    if i == j {
    } else {
      OverlapKeepsMembers(h, es, i, j - 1);
      assert Happens(h, es, j - 1);
      if es[j - 1].Change? {
        var s := h[j - 1].pending[es[j - 1].ticket];
        UpsertExtends(h[j - 1].config, s);
      }
    }
  }

  // The step at k applies a pending change for this ID.
  ghost predicate Applies(h: seq<Service>, es: seq<Event>, k: int, id: string)
    requires History(h, es) && 0 <= k < |es|
  {
    && es[k].Change? && es[k].add != Refused
    && es[k].ticket in h[k].pending && h[k].pending[es[k].ticket].id == id
  }

  ghost function Applied(h: seq<Service>, es: seq<Event>, k: int): Server
    requires History(h, es) && 0 <= k < |es| && es[k].Change? && es[k].ticket in h[k].pending
  {
    h[k].pending[es[k].ticket]
  }

  lemma AddressStep(h: seq<Service>, es: seq<Event>, k: int, n: nat)
    requires History(h, es) && 0 <= k < |es| && UniqueIds(h[k].config) && n < |h[k].config|
    ensures n < |h[k + 1].config| && h[k + 1].config[n].id == h[k].config[n].id
    ensures h[k + 1].config[n].address ==
            if Applies(h, es, k, h[k].config[n].id) then Applied(h, es, k).address else h[k].config[n].address
  {
    assert Happens(h, es, k);
    if es[k].Change? { UpsertAt(h[k].config, h[k].pending[es[k].ticket], n); }
  }

  // Every applied change for the ID of server n between i and j asks for the address
  // the server has at i.
  ghost predicate OnlySameAddress(h: seq<Service>, es: seq<Event>, i: int, j: int, n: nat)
    requires History(h, es) && 0 <= i <= j < |h| && n < |h[i].config|
  {
    forall k :: i <= k < j && Applies(h, es, k, h[i].config[n].id) ==>
      Applied(h, es, k).address == h[i].config[n].address
  }

  lemma {:induction false} SameAddressKeeps(h: seq<Service>, es: seq<Event>, i: int, j: int, n: nat)
    requires History(h, es) && 0 <= i <= j < |h| && UniqueIds(h[i].config) && n < |h[i].config|
    requires OnlySameAddress(h, es, i, j, n)
    ensures n < |h[j].config| && h[j].config[n].id == h[i].config[n].id
    ensures h[j].config[n].address == h[i].config[n].address
  {
    if i == j {
    } else {
      SameAddressKeeps(h, es, i, j - 1, n);
      OverlapKeepsMembers(h, es, i, j - 1);
      AddressStep(h, es, j - 1, n);
    }
  }

  // Once an ID is in the configuration no new request for it passes the check, so a
  // change for it that is applied later was already pending.
  lemma {:induction false} PendingSince(h: seq<Service>, es: seq<Event>, i: int, j: int, n: nat, ticket: nat)
    requires History(h, es) && 0 <= i <= j < |h| && UniqueIds(h[i].config) && n < |h[i].config|
    requires ticket in h[j].pending && h[j].pending[ticket].id == h[i].config[n].id
    ensures ticket in h[i].pending && h[i].pending[ticket] == h[j].pending[ticket]
  {
    if i == j {
    } else {
      OverlapKeepsMembers(h, es, i, j - 1);
      assert h[j - 1].config[n].id == h[i].config[n].id;
      assert HasId(h[j - 1].config, h[i].config[n].id);
      assert Happens(h, es, j - 1);
      PendingSince(h, es, i, j - 1, n, ticket);
    }
  }

  // Among the requests pending at i, some rival asks for server n's ID under another
  // address, and its change is applied before j.
  ghost predicate RivalApplied(h: seq<Service>, es: seq<Event>, i: int, j: int, n: nat)
    requires History(h, es) && 0 <= i <= j < |h| && n < |h[i].config|
  {
    exists k :: i <= k < j && Rival(h, es, i, k, n)
  }

  ghost predicate Rival(h: seq<Service>, es: seq<Event>, i: int, k: int, n: nat)
    requires History(h, es) && 0 <= i <= k < |es| && n < |h[i].config|
  {
    && es[k].Change? && es[k].add != Refused && es[k].ticket in h[i].pending
    && h[i].pending[es[k].ticket].id == h[i].config[n].id
    && h[i].pending[es[k].ticket].address != h[i].config[n].address
    && forall m :: i <= m < k ==> es[m].ticket != es[k].ticket
  }

  // A server keeps its address at every point up to j exactly when no rival that had
  // passed the check before the server was there is applied.
  lemma KeepsAddressIff(h: seq<Service>, es: seq<Event>, i: int, j: int, n: nat)
    requires History(h, es) && 0 <= i <= j < |h| && UniqueIds(h[i].config) && n < |h[i].config|
    ensures (forall k :: i <= k <= j ==> n < |h[k].config| && h[k].config[n].address == h[i].config[n].address)
       <==> !RivalApplied(h, es, i, j, n)
  {
    if RivalApplied(h, es, i, j, n) {
      var k :| i <= k < j && Rival(h, es, i, k, n);
      OverlapKeepsMembers(h, es, i, k);
      PendingUntouched(h, es, i, k, es[k].ticket);
      AddressStep(h, es, k, n);
    } else {
      forall k | i <= k < j && Applies(h, es, k, h[i].config[n].id)
        ensures Applied(h, es, k).address == h[i].config[n].address
      {
        PendingSince(h, es, i, k, n, es[k].ticket);
        AppliedOnce(h, es, i, k, n, es[k].ticket);
        assert Rival(h, es, i, k, n) || Applied(h, es, k).address == h[i].config[n].address;
      }
      forall k | i <= k <= j ensures n < |h[k].config| && h[k].config[n].address == h[i].config[n].address {
        SameAddressKeeps(h, es, i, k, n);
      }
    }
  }

  lemma {:induction false} PendingUntouched(h: seq<Service>, es: seq<Event>, i: int, k: int, ticket: nat)
    requires History(h, es) && 0 <= i <= k < |h| && ticket in h[i].pending
    requires forall m :: i <= m < k ==> es[m].ticket != ticket
    ensures ticket in h[k].pending && h[k].pending[ticket] == h[i].pending[ticket]
  {
    if i == k {
    } else {
      PendingUntouched(h, es, i, k - 1, ticket);
      assert Happens(h, es, k - 1);
    }
  }

  // No step before k uses the ticket of a request that is still pending at k.
  lemma {:induction false} AppliedOnce(h: seq<Service>, es: seq<Event>, i: int, k: int, n: nat, ticket: nat)
    requires History(h, es) && 0 <= i <= k < |h| && UniqueIds(h[i].config) && n < |h[i].config|
    requires ticket in h[k].pending && h[k].pending[ticket].id == h[i].config[n].id
    ensures forall m :: i <= m < k ==> es[m].ticket != ticket
  {
    if i == k {
    } else {
      OverlapKeepsMembers(h, es, i, k - 1);
      assert HasId(h[k - 1].config, h[k - 1].config[n].id);
      assert Happens(h, es, k - 1);
      AppliedOnce(h, es, i, k - 1, n, ticket);
    }
  }

  // Two overlapping requests for one new ID: both pass the check, both are answered as
  // added, and the second one's address stands.
  lemma OverlapOverwrites(c: Configuration, first: Attempt, second: Attempt) returns (h: seq<Service>, es: seq<Event>)
    requires Passes(c, first).Some? && Passes(c, second).Some? && UniqueIds(c)
    requires first.body.value.0 == second.body.value.0 && first.body.value.1 != second.body.value.1
    ensures History(h, es) && h[0] == Service(c, map[]) && |es| == 4
    ensures |h[3].config| == |c| + 1 && h[3].config[|c|].address == first.body.value.1
    ensures |c| < |h[4].config| && h[4].config[|c|].address == second.body.value.1
  {
    var s1, s2 := Passes(c, first).value, Passes(c, second).value;
    es := [Check(0, first), Check(1, second), Change(0, Done), Change(1, Done)];
    var h0 := Service(c, map[]);
    var h1 := Next(h0, es[0]);
    var h2 := Next(h1, es[1]);
    var h3 := Next(h2, es[2]);
    var h4 := Next(h3, es[3]);
    h := [h0, h1, h2, h3, h4];
    UpsertNew(c, s1);
    assert h3.config == c + [s1] && h3.pending[1] == s2;
    UpsertExtends(c, s1);
    UpsertAt(h3.config, s2, |c|);
    forall i | 0 <= i < |es| ensures Happens(h, es, i) {
      assert i == 0 || i == 1 || i == 2 || i == 3;
    }
  }
}
