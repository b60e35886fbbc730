/** `Join`: a node is added to a cluster's configuration, after whatever conflicts with it is removed. */
module Membership {
  datatype Server = Server(id: string, address: string)

  datatype Result = Joined | AlreadyMember | NoConfiguration | NotRemoved(id: string) | NotAdded

  /** No two servers share an id or an address. */
  predicate Distinct(servers: seq<Server>) {
    forall i, k | 0 <= i < k < |servers| :: servers[i].id != servers[k].id && servers[i].address != servers[k].address
  }

  /** The server has the id or the address of the one that joins. */
  predicate Related(s: Server, id: string, address: string) { s.id == id || s.address == address }

  /** The servers that have nothing to do with the joining one, in their order. */
  function Unrelated(servers: seq<Server>, id: string, address: string): seq<Server> {
    if servers == [] then []
    else
      var rest := Unrelated(servers[..|servers| - 1], id, address);
      var last := servers[|servers| - 1];
      if Related(last, id, address) then rest else rest + [last]
  }

  /** The configuration without the server of this id. */
  function Without(servers: seq<Server>, id: string): seq<Server> {
    if servers == [] then []
    else if servers[0].id == id then servers[1..]
    else [servers[0]] + Without(servers[1..], id)
  }

  lemma {:induction false} WithoutMiddle(x: seq<Server>, s: Server, y: seq<Server>)
    requires forall t | t in x :: t.id != s.id
    ensures Without(x + [s] + y, s.id) == x + y
  {
    var all := x + [s] + y;
    if x == [] {
      assert all[1..] == y && x + y == y;
    } else {
      assert all[0] == x[0] && all[1..] == x[1..] + [s] + y;
      WithoutMiddle(x[1..], s, y);
      assert [x[0]] + (x[1..] + y) == x + y;
    }
  }

  lemma {:induction false} UnrelatedIs(servers: seq<Server>, id: string, address: string)
    ensures forall s :: s in Unrelated(servers, id, address) <==> s in servers && s.id != id && s.address != address
  {
    if servers != [] {
      var front, last := servers[..|servers| - 1], servers[|servers| - 1];
      UnrelatedIs(front, id, address);
      assert servers == front + [last];
    }
  }

  /** Server `k` of these stood at `at[k]`. */
  predicate InOrder(some: seq<Server>, servers: seq<Server>, at: seq<nat>) {
    && |at| == |some|
    && (forall k | 0 <= k < |at| :: at[k] < |servers| && some[k] == servers[at[k]])
    && (forall j, k | 0 <= j < k < |at| :: at[j] < at[k])
  }

  lemma InOrderLonger(some: seq<Server>, servers: seq<Server>, at: seq<nat>, last: Server)
    requires InOrder(some, servers, at)
    ensures InOrder(some, servers + [last], at) && InOrder(some + [last], servers + [last], at + [|servers|])
  {
  }

  /** They keep their order. */
  lemma {:induction false} UnrelatedInOrder(servers: seq<Server>, id: string, address: string) returns (at: seq<nat>)
    ensures InOrder(Unrelated(servers, id, address), servers, at)
  {
    at := [];
    if servers != [] {
      hide Related, InOrder;
      var n := |servers| - 1;
      at := UnrelatedInOrder(servers[..n], id, address);
      InOrderLonger(Unrelated(servers[..n], id, address), servers[..n], at, servers[n]);
      assert servers[..n] + [servers[n]] == servers;
      if !Related(servers[n], id, address) {
        at := at + [n];
      }
    }
  }

  lemma {:induction false} UnrelatedDistinct(servers: seq<Server>, id: string, address: string)
    requires Distinct(servers)
    ensures Distinct(Unrelated(servers, id, address))
  {
    if servers != [] {
      var front := servers[..|servers| - 1];
      UnrelatedDistinct(front, id, address);
      UnrelatedIs(front, id, address);
      var rest := Unrelated(front, id, address);
      forall k | 0 <= k < |rest|
        ensures rest[k].id != servers[|servers| - 1].id && rest[k].address != servers[|servers| - 1].address
      {
        assert rest[k] in front;
      }
    }
  }

  /** Where the loop stands after `i` servers of the fetched configuration. */
  predicate Midway(conf: seq<Server>, i: int, now: seq<Server>, id: string, address: string) {
    && 0 <= i <= |conf| && now == Unrelated(conf[..i], id, address) + conf[i..]
    && Server(id, address) !in conf[..i]
    && (Server(id, address) in conf ==> now == conf)
  }

  lemma MidwayStart(conf: seq<Server>, id: string, address: string)
    ensures Midway(conf, 0, conf, id, address)
  {
    assert [] + conf == conf;
  }

  lemma UnrelatedMore(conf: seq<Server>, i: nat, id: string, address: string)
    requires i < |conf|
    ensures Unrelated(conf[..i + 1], id, address) ==
      Unrelated(conf[..i], id, address) + if Related(conf[i], id, address) then [] else [conf[i]]
    ensures conf[i..] == [conf[i]] + conf[i + 1..]
  {
    assert conf[..i + 1][..i] == conf[..i];
  }

  /** Of distinct servers, only one has the joining id and only one its address. */
  lemma OnlyMember(conf: seq<Server>, i: nat, id: string, address: string)
    requires Distinct(conf) && i < |conf| && Related(conf[i], id, address) && Server(id, address) in conf
    ensures conf[i] == Server(id, address)
  {
    var k :| 0 <= k < |conf| && conf[k] == Server(id, address);
    assert k == i || k < i || i < k;
  }

  lemma MidwayRemoved(conf: seq<Server>, i: nat, now: seq<Server>, id: string, address: string)
    requires Distinct(conf) && Midway(conf, i, now, id, address) && i < |conf|
    requires Related(conf[i], id, address) && conf[i] != Server(id, address)
    ensures Midway(conf, i + 1, Without(now, conf[i].id), id, address)
  {
    hide Distinct, Unrelated, Without;
    if Server(id, address) in conf {
      OnlyMember(conf, i, id, address);
    }
    UnrelatedMore(conf, i, id, address);
    var x := Unrelated(conf[..i], id, address);
    EarlierDiffer(conf, i, id, address);
    WithoutMiddle(x, conf[i], conf[i + 1..]);
    assert now == x + [conf[i]] + conf[i + 1..];
  }

  lemma EarlierDiffer(conf: seq<Server>, i: nat, id: string, address: string)
    requires Distinct(conf) && i < |conf|
    ensures forall t | t in Unrelated(conf[..i], id, address) :: t.id != conf[i].id
  {
    hide Unrelated;
    UnrelatedIs(conf[..i], id, address);
  }

  lemma MidwayKept(conf: seq<Server>, i: nat, now: seq<Server>, id: string, address: string)
    requires Midway(conf, i, now, id, address) && i < |conf| && !Related(conf[i], id, address)
    ensures Midway(conf, i + 1, now, id, address)
  {
    hide Unrelated;
    UnrelatedMore(conf, i, id, address);
    var x := Unrelated(conf[..i], id, address);
    assert x + ([conf[i]] + conf[i + 1..]) == (x + [conf[i]]) + conf[i + 1..];
  }

  /** A distinct front, all from one side of the cut, joins a distinct rest from the other. */
  lemma DistinctAcross(conf: seq<Server>, i: nat, x: seq<Server>)
    requires Distinct(conf) && i <= |conf| && Distinct(x) && forall s | s in x :: s in conf[..i]
    ensures Distinct(x + conf[i..])
  {
    var now := x + conf[i..];
    forall j, k | 0 <= j < k < |now| ensures now[j].id != now[k].id && now[j].address != now[k].address {
      if j < |x| <= k {
        assert x[j] in conf[..i] && now[k] == conf[i + k - |x|];
      }
    }
  }

  /** At any point the configuration is sound, and the unrelated servers are in it. */
  lemma MidwaySound(conf: seq<Server>, i: nat, now: seq<Server>, id: string, address: string)
    requires Distinct(conf) && Midway(conf, i, now, id, address)
    ensures Distinct(now)
    ensures forall s | s in conf && !Related(s, id, address) :: s in now
    ensures forall s | s in now :: s in conf
    ensures i == |conf| ==> now == Unrelated(conf, id, address) && Server(id, address) !in conf
  {
    var x := Unrelated(conf[..i], id, address);
    UnrelatedIs(conf[..i], id, address);
    UnrelatedDistinct(conf[..i], id, address);
    DistinctAcross(conf, i, x);
    hide Unrelated, Distinct, Related;
    forall s | s in conf ensures s in conf[..i] || s in conf[i..] {
      assert conf == conf[..i] + conf[i..];
    }
    if i == |conf| {
      assert conf[..i] == conf && x + [] == x;
    }
  }

  lemma AddedDistinct(servers: seq<Server>, conf: seq<Server>, id: string, address: string)
    requires servers == Unrelated(conf, id, address) && Distinct(servers)
    ensures Distinct(servers + [Server(id, address)]) && forall s | s in servers :: s.id != id
  {
    UnrelatedIs(conf, id, address);
    forall k | 0 <= k < |servers| ensures servers[k].id != id && servers[k].address != address {
      assert servers[k] in servers;
    }
  }

  /** The configuration the leader holds. Raft refuses changes when it cannot commit them. */
  class Cluster {
    var servers: seq<Server>

    constructor (servers: seq<Server>)
      ensures this.servers == servers
    {
      this.servers := servers;
    }

    method RemoveServer(id: string, commits: bool) returns (ok: bool)
      modifies this
      ensures ok == commits && servers == if commits then Without(old(servers), id) else old(servers)
    {
      if commits {
        servers := Without(servers, id);
      }
      ok := commits;
    }

    /** A voter with a known id gets the new address; any other is put at the end. */
    method AddVoter(id: string, address: string, commits: bool) returns (ok: bool)
      requires forall s | s in servers :: s.id != id
      modifies this
      ensures ok == commits && servers == old(servers) + if commits then [Server(id, address)] else []
    {
      if commits {
        servers := servers + [Server(id, address)];
      }
      ok := commits;
    }

    /** `Join`; the loop runs over the configuration as it was fetched, while removals change the current one. */
    method Join(id: string, address: string, fetched: bool, stuck: set<string>, commits: bool) returns (r: Result)
      requires Distinct(servers)
      modifies this
      ensures Distinct(servers)
      // a member with the very same id and address: nothing is removed and nothing added
      ensures fetched && Server(id, address) in old(servers) ==> r == AlreadyMember && servers == old(servers)
      ensures r == AlreadyMember ==> fetched && Server(id, address) in old(servers)
      ensures !fetched ==> r == NoConfiguration && servers == old(servers)
      // a join: the conflicting servers gone, the others as they were, the new one last
      ensures r == Joined ==> servers == Unrelated(old(servers), id, address) + [Server(id, address)]
      ensures r == NotAdded ==> servers == Unrelated(old(servers), id, address)
      // whatever happens
      ensures forall s | s in old(servers) && s.id != id && s.address != address :: s in servers
      ensures forall s | s in servers :: s in old(servers) || (r == Joined && s == Server(id, address))
      ensures fetched && stuck == {} && commits ==> r == Joined || r == AlreadyMember
    {
      hide Distinct, Unrelated, Without;
      if !fetched {
        return NoConfiguration;
      }
      var configuration := servers;
      MidwayStart(servers, id, address);
      var i := 0;
      while i < |configuration|
        invariant 0 <= i <= |configuration| && Midway(configuration, i, servers, id, address)
      {
        var srv := configuration[i];
        MidwaySound(configuration, i, servers, id, address);
        if srv.id == id || srv.address == address {
          if srv.address == address && srv.id == id {
            return AlreadyMember;
          }
          MidwayRemoved(configuration, i, servers, id, address);
          assert Server(id, address) in configuration ==> false by { NotMember(configuration, i, id, address); }
          var ok := RemoveServer(srv.id, srv.id !in stuck);
          if !ok {
            return NotRemoved(srv.id);
          }
        } else {
          MidwayKept(configuration, i, servers, id, address);
        }
        i := i + 1;
      }
      MidwaySound(configuration, i, servers, id, address);
      AddedDistinct(servers, configuration, id, address);
      assert servers + [] == servers;
      var ok := AddVoter(id, address, commits);
      r := if ok then Joined else NotAdded;
    }
  }

  lemma NotMember(conf: seq<Server>, i: nat, id: string, address: string)
    requires Distinct(conf) && i < |conf| && Related(conf[i], id, address) && conf[i] != Server(id, address)
    ensures Server(id, address) !in conf
  {
    if Server(id, address) in conf {
      OnlyMember(conf, i, id, address);
    }
  }
}
