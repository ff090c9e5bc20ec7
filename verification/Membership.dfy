/**
 How a node enters the cluster: it takes the member list of the node it was given, adds that node,
 and shakes hands with every entry.
 */
module Membership {

  type NodeId = nat

  /** Every member lists every other member exactly once, and never itself. */
  ghost predicate FullMesh(conn: map<NodeId, seq<NodeId>>) {
    forall m :: m in conn ==> Lists(conn[m], conn.Keys - {m})
  }

  /** `list` names exactly the members of `members`, each once. */
  ghost predicate Lists(list: seq<NodeId>, members: set<NodeId>) {
    && (forall x :: x in members <==> x in list)
    && (forall i, j :: 0 <= i < j < |list| ==> list[i] != list[j])
  }

  /** The effect of handshakes by `newcomer` with the nodes on `list`, one after the other. */
  function Handshakes(conn: map<NodeId, seq<NodeId>>, newcomer: NodeId, list: seq<NodeId>)
    : (r: map<NodeId, seq<NodeId>>)
    requires forall x :: x in list ==> x in conn
    ensures r.Keys == conn.Keys
  {
    if list == [] then conn
    else
      var last := list[|list| - 1];
      var before := Handshakes(conn, newcomer, list[..|list| - 1]);
      before[last := before[last] + [newcomer]]
  }

  /** `newcomer` is new, and `via` is a member that knows only members. */
  predicate CanJoin(conn: map<NodeId, seq<NodeId>>, newcomer: NodeId, via: NodeId) {
    newcomer !in conn && via in conn && forall x :: x in conn[via] ==> x in conn
  }

  /** The member lists after `newcomer` has joined through `via`. */
  function Joined(conn: map<NodeId, seq<NodeId>>, newcomer: NodeId, via: NodeId): (r: map<NodeId, seq<NodeId>>)
    requires CanJoin(conn, newcomer, via)
    ensures r.Keys == conn.Keys + {newcomer}
  {
    var list := conn[via] + [via];
    Handshakes(conn[newcomer := list], newcomer, list)
  }

  /** A handshake reaches exactly the listed nodes, each as often as it is listed. */
  lemma {:induction false} HandshakesReach(conn: map<NodeId, seq<NodeId>>, newcomer: NodeId, list: seq<NodeId>,
      m: NodeId)
    requires forall x :: x in list ==> x in conn
    requires m in conn
    requires forall i, j :: 0 <= i < j < |list| ==> list[i] != list[j]
    ensures Handshakes(conn, newcomer, list)[m] == if m in list then conn[m] + [newcomer] else conn[m]
  {
    if list != [] {
      var front := list[..|list| - 1];
      assert list == front + [list[|list| - 1]];
      HandshakesReach(conn, newcomer, front, m);
    }
  }

  /** The newcomer gets its contact's list and the contact itself; every member gets the newcomer. */
  lemma JoinedList(conn: map<NodeId, seq<NodeId>>, newcomer: NodeId, via: NodeId, m: NodeId)
    requires FullMesh(conn) && CanJoin(conn, newcomer, via) && (m in conn || m == newcomer)
    ensures Joined(conn, newcomer, via)[m] == if m == newcomer then conn[via] + [via] else conn[m] + [newcomer]
  {
    var list := conn[via] + [via];
    assert Lists(conn[via], conn.Keys - {via});
    assert m in conn ==> m in list;
    HandshakesReach(conn[newcomer := list], newcomer, list, m);
  }

  /** Joining through any member keeps the mesh full. */
  lemma JoinKeepsFullMesh(conn: map<NodeId, seq<NodeId>>, newcomer: NodeId, via: NodeId)
    requires FullMesh(conn) && newcomer !in conn && via in conn
    ensures CanJoin(conn, newcomer, via)
    ensures FullMesh(Joined(conn, newcomer, via))
  {
    var list := conn[via] + [via];
    assert Lists(conn[via], conn.Keys - {via});
    var start := conn[newcomer := list];
    var after := Joined(conn, newcomer, via);
    assert Lists(list, conn.Keys);
    forall m | m in after
      ensures Lists(after[m], after.Keys - {m})
    {
      HandshakesReach(start, newcomer, list, m);
      if m == newcomer {
        assert after[m] == list;
      } else {
        assert after[m] == conn[m] + [newcomer];
        assert Lists(conn[m], conn.Keys - {m});
        assert newcomer !in conn[m];
        forall x ensures x in after.Keys - {m} <==> x in after[m] {
          if x != newcomer {
            assert x in conn.Keys - {m} <==> x in conn[m];
          }
        }
      }
    }
  }

  datatype JoinCall = JoinCall(newcomer: NodeId, via: NodeId)

  /** Joins that follow one another, each by a new address through an existing member. */
  ghost predicate ValidJoins(members: set<NodeId>, joins: seq<JoinCall>)
    decreases |joins|
  {
    joins == [] ||
    (joins[0].newcomer !in members && joins[0].via in members &&
     ValidJoins(members + {joins[0].newcomer}, joins[1..]))
  }

  ghost function Members(members: set<NodeId>, joins: seq<JoinCall>): set<NodeId>
    decreases |joins|
  {
    if joins == [] then members else Members(members + {joins[0].newcomer}, joins[1..])
  }

  ghost function JoinAll(conn: map<NodeId, seq<NodeId>>, joins: seq<JoinCall>): map<NodeId, seq<NodeId>>
    requires FullMesh(conn) && ValidJoins(conn.Keys, joins)
    decreases |joins|
  {
    if joins == [] then conn
    else
      JoinKeepsFullMesh(conn, joins[0].newcomer, joins[0].via);
      JoinAll(Joined(conn, joins[0].newcomer, joins[0].via), joins[1..])
  }

  function Alone(master: NodeId): (conn: map<NodeId, seq<NodeId>>)
    ensures conn.Keys == {master}
  {
    map[master := []]
  }

  /** Whatever the order and the entry points of the joins, everyone ends up listing everyone else. */
  lemma {:induction false} JoinsBuildFullMesh(master: NodeId, joins: seq<JoinCall>)
    requires ValidJoins({master}, joins)
    ensures FullMesh(Alone(master))
    ensures var conn := JoinAll(Alone(master), joins);
            FullMesh(conn) && conn.Keys == Members({master}, joins)
  {
    JoinsKeepFullMesh(Alone(master), joins);
  }

  lemma {:induction false} JoinsKeepFullMesh(conn: map<NodeId, seq<NodeId>>, joins: seq<JoinCall>)
    requires FullMesh(conn) && ValidJoins(conn.Keys, joins)
    ensures FullMesh(JoinAll(conn, joins))
    ensures JoinAll(conn, joins).Keys == Members(conn.Keys, joins)
    decreases |joins|
  {
    if joins != [] {
      JoinKeepsFullMesh(conn, joins[0].newcomer, joins[0].via);
      JoinsKeepFullMesh(Joined(conn, joins[0].newcomer, joins[0].via), joins[1..]);
    }
  }

  /** A node's part in joining; `net` is what an address reaches. */
  class Member {
    const addr: NodeId
    var conn: seq<NodeId>

    constructor (addr: NodeId)
      ensures this.addr == addr && conn == []
    {
      this.addr := addr;
      conn := [];
    }

    method RespondHandShake(src: NodeId)
      modifies this`conn
      ensures conn == old(conn) + [src]
    {
      conn := conn + [src];
    }

    method RespondJoin() returns (list: seq<NodeId>)
      ensures list == conn
    {
      list := conn;
    }

    method ShakeHands(net: map<NodeId, Member>, list: seq<NodeId>)
      requires forall x :: x in list ==> x in net
      requires Distinct(net)
      modifies set m | m in net.Values
      ensures Views(net) == Handshakes(old(Views(net)), addr, list)
    {
      for i := 0 to |list|
        invariant Views(net) == Handshakes(old(Views(net)), addr, list[..i])
      {
        assert list[..i + 1][..i] == list[..i];
        ghost var before := Views(net);
        var peer := net[list[i]];
        peer.RespondHandShake(addr);
        assert Views(net) == before[list[i] := before[list[i]] + [addr]];
      }
      assert list[..|list|] == list;
    }

    /** The whole of joining: afterwards everyone's list is what `Joined` says. */
    method Connect(net: map<NodeId, Member>, dst: NodeId)
      requires Distinct(net) && addr in net && net[addr] == this && dst in net && dst != addr
      requires forall x :: x in net[dst].conn ==> x in net && x != addr
      modifies set m | m in net.Values
      ensures CanJoin(old(Views(net)) - {addr}, addr, dst)
      ensures Views(net) == Joined(old(Views(net)) - {addr}, addr, dst)
    {
      ghost var others := Views(net) - {addr};
      assert others.Keys == net.Keys - {addr};
      assert others[dst] == net[dst].conn;
      assert CanJoin(others, addr, dst);
      conn := net[dst].RespondJoin();
      conn := conn + [dst];
      assert Views(net) == others[addr := conn];
      ShakeHands(net, conn);
    }
  }

  /** Distinct addresses reach distinct nodes. */
  ghost predicate Distinct(net: map<NodeId, Member>) {
    forall a :: a in net ==> net[a].addr == a
  }

  ghost function Views(net: map<NodeId, Member>): map<NodeId, seq<NodeId>>
    reads set m | m in net.Values
  {
    map a | a in net :: net[a].conn
  }
}
