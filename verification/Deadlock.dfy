/**
 A reachable state in which a tracer waits for good: with three nodes and two pages, node 1 owns page 1 and
 reads page 0 in, while node 2 reads page 1 from it.
 */
module Deadlock {
  import opened Prelude
  import opened Protection
  import opened PageNode
  import opened Cluster
  import opened Coherence
  import opened Rounds
  import Limits
  import Membership
  import P = PageProtocol

  const OLD := Copy(0, [])

  function Setup(): Config {
    Config(2, 0, [[], []])
  }

  /** The master keeps page 0, node 1 has nothing of it at first; they differ in what they have of page 1. */
  function Keeper(info: Prot, hw: Hw): NodeView {
    NodeView([Write, info], [ReadWrite, hw], [OLD, OLD])
  }

  function Reader(info: Prot, hw: Hw): NodeView {
    NodeView([Invalid, info], [NoAccess, hw], [OLD, OLD])
  }

  function Two(v0: NodeView, v1: NodeView, rounds: map<NodeId, Round>, mu: map<NodeId, (NodeId, nat)>): State {
    State(map[0 := [1], 1 := [0]], map[0 := v0, 1 := v1], rounds, mu, map[0 := [0, 0], 1 := [0, 0]], [[], []])
  }

  function Three(v0: NodeView, v1: NodeView, rounds: map<NodeId, Round>, mu: map<NodeId, (NodeId, nat)>): State {
    State(map[0 := [1, 2], 1 := [0, 2], 2 := [1, 0]], map[0 := v0, 1 := v1, 2 := Reader(Invalid, NoAccess)],
          rounds, mu, map[0 := [0, 0], 1 := [0, 0], 2 := [0, 0]], [[], []])
  }

  /** The round of node 1 for page 1, and its round for page 0 when there are two others to ask. */
  function Ask(kind: P.Kind, status: P.Status, data: Option<Copy>, installed: bool): map<NodeId, Round> {
    map[1 := P.Round(kind, 1, [0], [status], data, installed)]
  }

  function AskBoth(first: P.Status, second: P.Status, data: Option<Copy>): map<NodeId, Round> {
    map[1 := P.Round(P.ReadRound, 0, [0, 2], [first, second], data, false)]
  }

  /** The states of the run: node 1 joins, reads page 1, takes it over, node 2 joins, node 1 has page 0 in its
      hands, and node 2 asks for page 1. */
  function At(k: nat): State {
    if k == 0 then InitState(Setup(), 0)
    else if k == 1 then Two(Keeper(Write, ReadWrite), Reader(Invalid, NoAccess), map[], map[])
    else if k == 2 then
      Two(Keeper(Write, ReadWrite), Reader(Invalid, NoAccess), Ask(P.ReadRound, P.Asked, None, false), map[])
    else if k == 3 then
      Two(Keeper(Write, ReadWrite), Reader(Invalid, NoAccess), Ask(P.ReadRound, P.Reading, None, false),
          map[0 := (1, 0)])
    else if k == 4 then
      Two(Keeper(Write, ReadWrite), Reader(Invalid, NoAccess), Ask(P.ReadRound, P.InFlight(Some(OLD)), None, false),
          map[])
    else if k == 5 then
      Two(Keeper(Write, ReadWrite), Reader(Invalid, NoAccess), Ask(P.ReadRound, P.Done, Some(OLD), false), map[])
    else if k == 6 then
      Two(Keeper(Write, ReadWrite), Reader(Invalid, ReadWrite), Ask(P.ReadRound, P.Done, Some(OLD), true), map[])
    else if k == 7 then Two(Keeper(Write, ReadWrite), Reader(Read, ReadOnly), map[], map[])
    else if k == 8 then
      Two(Keeper(Write, ReadWrite), Reader(Read, ReadOnly), Ask(P.WriteRound, P.Asked, None, false), map[])
    else if k == 9 then
      Two(Keeper(Read, ReadWrite), Reader(Read, ReadOnly), Ask(P.WriteRound, P.Flipped, None, false), map[])
    else if k == 10 then
      Two(Keeper(Read, ReadOnly), Reader(Read, ReadOnly), Ask(P.WriteRound, P.InFlight(Some(OLD)), None, false), map[])
    else if k == 11 then
      Two(Keeper(Read, ReadOnly), Reader(Read, ReadOnly), Ask(P.WriteRound, P.Done, Some(OLD), false), map[])
    else if k == 12 then
      Two(Keeper(Read, ReadOnly), Reader(Read, ReadWrite), Ask(P.WriteRound, P.Done, Some(OLD), true), map[])
    else if k == 13 then Two(Keeper(Read, ReadOnly), Reader(Write, ReadWrite), map[], map[])
    else if k == 14 then Three(Keeper(Read, ReadOnly), Reader(Write, ReadWrite), map[], map[])
    else if k == 15 then
      Three(Keeper(Read, ReadOnly), Reader(Write, ReadWrite), AskBoth(P.Asked, P.Asked, None), map[])
    else if k == 16 then
      Three(Keeper(Read, ReadOnly), Reader(Write, ReadWrite), AskBoth(P.Reading, P.Asked, None), map[0 := (1, 0)])
    else if k == 17 then
      Three(Keeper(Read, ReadOnly), Reader(Write, ReadWrite), AskBoth(P.InFlight(Some(OLD)), P.Asked, None), map[])
    else if k == 18 then
      Three(Keeper(Read, ReadOnly), Reader(Write, ReadWrite), AskBoth(P.InFlight(Some(OLD)), P.InFlight(None), None),
            map[])
    else if k == 19 then
      Three(Keeper(Read, ReadOnly), Reader(Write, ReadWrite), AskBoth(P.Done, P.InFlight(None), Some(OLD)), map[])
    else if k == 20 then
      Three(Keeper(Read, ReadOnly), Reader(Write, ReadWrite), AskBoth(P.Done, P.Done, Some(OLD)), map[])
    else
      Three(Keeper(Read, ReadOnly), Reader(Write, ReadWrite),
            AskBoth(P.Done, P.Done, Some(OLD))[2 := P.Round(P.ReadRound, 1, [1, 0], [P.Asked, P.Asked], None, false)],
            map[])
  }

  // ----- each state follows the one before -----

  lemma StartRoundFollows(c: Config, s: State, n: NodeId, p: nat, t: State)
    requires Shape(c, s) && CanStartRound(c, s, n, p) && t == AfterStartRound(s, n, p)
    ensures Follows(c, s, t)
  {
    assert Enabled(c, s, StartRound(n, p)) && t == Next(c, s, StartRound(n, p));
  }

  lemma AnswerEmptyFollows(c: Config, s: State, r: NodeId, i: nat, t: State)
    requires Shape(c, s) && CanAnswerEmpty(c, s, r, i) && t == SetStatus(s, r, i, P.InFlight(None))
    ensures Follows(c, s, t)
  {
    assert Enabled(c, s, AnswerEmpty(r, i)) && t == Next(c, s, AnswerEmpty(r, i));
  }

  lemma BeginReadFollows(c: Config, s: State, r: NodeId, i: nat, t: State)
    requires Shape(c, s) && CanBeginRead(c, s, r, i) && t == AfterBeginRead(c, s, r, i)
    ensures Follows(c, s, t)
  {
    assert Enabled(c, s, BeginRead(r, i)) && t == Next(c, s, BeginRead(r, i));
  }

  lemma SnapshotReadFollows(c: Config, s: State, r: NodeId, i: nat, t: State)
    requires Shape(c, s) && CanSnapshotRead(c, s, r, i) && t == AfterSnapshotRead(c, s, r, i)
    ensures Follows(c, s, t)
  {
    assert Enabled(c, s, SnapshotRead(r, i)) && t == Next(c, s, SnapshotRead(r, i));
  }

  lemma FlipWriteFollows(c: Config, s: State, r: NodeId, i: nat, t: State)
    requires Shape(c, s) && CanFlipWrite(c, s, r, i) && t == AfterFlipWrite(c, s, r, i)
    ensures Follows(c, s, t)
  {
    assert Enabled(c, s, FlipWrite(r, i)) && t == Next(c, s, FlipWrite(r, i));
  }

  lemma SnapshotWriteFollows(c: Config, s: State, r: NodeId, i: nat, t: State)
    requires Shape(c, s) && CanSnapshotWrite(c, s, r, i) && t == AfterSnapshotWrite(c, s, r, i)
    ensures Follows(c, s, t)
  {
    assert Enabled(c, s, SnapshotWrite(r, i)) && t == Next(c, s, SnapshotWrite(r, i));
  }

  lemma ReceiveFollows(c: Config, s: State, r: NodeId, i: nat, t: State)
    requires Shape(c, s) && CanReceive(s, r, i) && t == AfterReceive(s, r, i)
    ensures Follows(c, s, t)
  {
    assert Enabled(c, s, Receive(r, i)) && t == Next(c, s, Receive(r, i));
  }

  lemma InstallFollows(c: Config, s: State, r: NodeId, t: State)
    requires Shape(c, s) && CanInstall(s, r) && t == AfterInstall(c, s, r)
    ensures Follows(c, s, t)
  {
    assert Enabled(c, s, Install(r)) && t == Next(c, s, Install(r));
  }

  lemma FinishReadFollows(c: Config, s: State, r: NodeId, t: State)
    requires Shape(c, s) && CanFinish(s, r, P.ReadRound) && t == AfterFinishRead(c, s, r)
    ensures Follows(c, s, t)
  {
    assert Enabled(c, s, FinishRead(r)) && t == Next(c, s, FinishRead(r));
  }

  lemma FinishWriteFollows(c: Config, s: State, r: NodeId, t: State)
    requires Shape(c, s) && CanFinish(s, r, P.WriteRound) && t == AfterFinishWrite(c, s, r)
    ensures Follows(c, s, t)
  {
    assert Enabled(c, s, FinishWrite(r)) && t == Next(c, s, FinishWrite(r));
  }

  lemma JoinFollows(c: Config, s: State, n: NodeId, via: NodeId, contents: seq<Copy>, t: State)
    requires Shape(c, s) && Cluster.CanJoin(c, s, n, via, contents) && t == AfterJoin(c, s, n, via, contents)
    ensures Follows(c, s, t)
  {
    assert Enabled(c, s, Join(n, via, contents)) && t == Next(c, s, Join(n, via, contents));
  }

  lemma Join1()
    requires Shape(Setup(), At(0))
    ensures Follows(Setup(), At(0), At(1))
  {
    var c, s, t := Setup(), At(0), At(1);
    Start();
    var s' := AfterJoin(c, s, 1, 0, [OLD, OLD]);
    JoinedOne();
    assert s'.synced[1] == [0, 0];
    assert s'.synced == t.synced;
    Limits.SameView(s'.nodes[1], Reader(Invalid, NoAccess));
    assert s'.nodes == t.nodes && s'.rounds == t.rounds && s'.mu == t.mu;
    JoinFollows(c, s, 1, 0, [OLD, OLD], t);
  }

  lemma Ask1()
    requires Shape(Setup(), At(1))
    ensures Follows(Setup(), At(1), At(2))
  {
    var c, s, t := Setup(), At(1), At(2);
    var s' := AfterStartRound(s, 1, 1);
    Limits.SameRound(s'.rounds[1], t.rounds[1]);
    assert s'.nodes == t.nodes && s'.rounds == t.rounds && s'.mu == t.mu;
    StartRoundFollows(c, s, 1, 1, t);
  }

  lemma Begin1()
    requires Shape(Setup(), At(2))
    ensures Follows(Setup(), At(2), At(3))
  {
    var c, s, t := Setup(), At(2), At(3);
    var s' := AfterBeginRead(c, s, 1, 0);
    Limits.SameRound(s'.rounds[1], t.rounds[1]);
    assert s'.nodes == t.nodes && s'.rounds == t.rounds && s'.mu == t.mu;
    BeginReadFollows(c, s, 1, 0, t);
  }

  lemma Snapshot1()
    requires Shape(Setup(), At(3))
    ensures Follows(Setup(), At(3), At(4))
  {
    var c, s, t := Setup(), At(3), At(4);
    var s' := AfterSnapshotRead(c, s, 1, 0);
    Limits.SameRound(s'.rounds[1], t.rounds[1]);
    Limits.SameView(s'.nodes[0], t.nodes[0]);
    assert s'.nodes == t.nodes && s'.rounds == t.rounds && s'.mu == t.mu;
    SnapshotReadFollows(c, s, 1, 0, t);
  }

  lemma Receive1()
    requires Shape(Setup(), At(4))
    ensures Follows(Setup(), At(4), At(5))
  {
    var c, s, t := Setup(), At(4), At(5);
    var s' := AfterReceive(s, 1, 0);
    Limits.SameRound(s'.rounds[1], t.rounds[1]);
    assert s'.nodes == t.nodes && s'.rounds == t.rounds && s'.mu == t.mu;
    ReceiveFollows(c, s, 1, 0, t);
  }

  lemma Install1()
    requires Shape(Setup(), At(5))
    ensures Follows(Setup(), At(5), At(6))
  {
    var c, s, t := Setup(), At(5), At(6);
    var s' := AfterInstall(c, s, 1);
    Limits.SameRound(s'.rounds[1], t.rounds[1]);
    Limits.SameView(s'.nodes[1], t.nodes[1]);
    assert s'.nodes == t.nodes && s'.rounds == t.rounds && s'.mu == t.mu;
    InstallFollows(c, s, 1, t);
  }

  lemma Finish1()
    requires Shape(Setup(), At(6))
    ensures Follows(Setup(), At(6), At(7))
  {
    var c, s, t := Setup(), At(6), At(7);
    var s' := AfterFinishRead(c, s, 1);
    Limits.SameView(s'.nodes[1], t.nodes[1]);
    assert s'.nodes == t.nodes && s'.rounds == t.rounds && s'.mu == t.mu;
    FinishReadFollows(c, s, 1, t);
  }

  lemma AskWrite()
    requires Shape(Setup(), At(7))
    ensures Follows(Setup(), At(7), At(8))
  {
    var c, s, t := Setup(), At(7), At(8);
    var s' := AfterStartRound(s, 1, 1);
    Limits.SameRound(s'.rounds[1], t.rounds[1]);
    assert s'.nodes == t.nodes && s'.rounds == t.rounds && s'.mu == t.mu;
    StartRoundFollows(c, s, 1, 1, t);
  }

  lemma FlipOne()
    requires Shape(Setup(), At(8))
    ensures Follows(Setup(), At(8), At(9))
  {
    var c, s, t := Setup(), At(8), At(9);
    var s' := AfterFlipWrite(c, s, 1, 0);
    Limits.SameRound(s'.rounds[1], t.rounds[1]);
    Limits.SameView(s'.nodes[0], t.nodes[0]);
    assert s'.nodes == t.nodes && s'.rounds == t.rounds && s'.mu == t.mu;
    FlipWriteFollows(c, s, 1, 0, t);
  }

  lemma CopyWrite()
    requires Shape(Setup(), At(9))
    ensures Follows(Setup(), At(9), At(10))
  {
    var c, s, t := Setup(), At(9), At(10);
    var s' := AfterSnapshotWrite(c, s, 1, 0);
    Limits.SameRound(s'.rounds[1], t.rounds[1]);
    Limits.SameView(s'.nodes[0], t.nodes[0]);
    assert s'.nodes == t.nodes && s'.rounds == t.rounds && s'.mu == t.mu;
    SnapshotWriteFollows(c, s, 1, 0, t);
  }

  lemma ReceiveTaken()
    requires Shape(Setup(), At(10))
    ensures Follows(Setup(), At(10), At(11))
  {
    var c, s, t := Setup(), At(10), At(11);
    var s' := AfterReceive(s, 1, 0);
    Limits.SameRound(s'.rounds[1], t.rounds[1]);
    assert s'.nodes == t.nodes && s'.rounds == t.rounds && s'.mu == t.mu;
    ReceiveFollows(c, s, 1, 0, t);
  }

  lemma InstallTaken()
    requires Shape(Setup(), At(11))
    ensures Follows(Setup(), At(11), At(12))
  {
    var c, s, t := Setup(), At(11), At(12);
    var s' := AfterInstall(c, s, 1);
    Limits.SameRound(s'.rounds[1], t.rounds[1]);
    Limits.SameView(s'.nodes[1], t.nodes[1]);
    assert s'.nodes == t.nodes && s'.rounds == t.rounds && s'.mu == t.mu;
    InstallFollows(c, s, 1, t);
  }

  lemma FinishTaken()
    requires Shape(Setup(), At(12))
    ensures Follows(Setup(), At(12), At(13))
  {
    var c, s, t := Setup(), At(12), At(13);
    var s' := AfterFinishWrite(c, s, 1);
    Limits.SameView(s'.nodes[1], t.nodes[1]);
    assert s'.nodes == t.nodes && s'.rounds == t.rounds && s'.mu == t.mu;
    FinishWriteFollows(c, s, 1, t);
  }

  lemma Join2()
    requires Shape(Setup(), At(13))
    ensures Follows(Setup(), At(13), At(14))
  {
    JoinedTwo();
    SecondSynced();
    SecondView();
    JoinedFollows(Setup(), At(13), 2, 0, [OLD, OLD], At(14));
  }

  lemma JoinedFollows(c: Config, s: State, n: NodeId, via: NodeId, contents: seq<Copy>, t: State)
    requires Shape(c, s) && Cluster.CanJoin(c, s, n, via, contents)
    requires t.conn == Membership.Joined(s.conn, n, via) && t.nodes == s.nodes[n := InitView(contents, false)]
    requires t.synced == s.synced[n := seq(c.pages, _ => 0)]
    requires t.rounds == s.rounds && t.mu == s.mu && t.log == s.log
    ensures Follows(c, s, t)
  {
    JoinFollows(c, s, n, via, contents, t);
  }

  lemma SecondSynced()
    ensures map[0 := [0, 0], 1 := [0, 0]][2 := seq(2, _ => 0)] == map[0 := [0, 0], 1 := [0, 0], 2 := [0, 0]]
  {
    assert seq(2, _ => 0) == [0, 0];
  }

  lemma SecondView()
    ensures InitView([OLD, OLD], false) == Reader(Invalid, NoAccess)
  {
    Limits.SameView(InitView([OLD, OLD], false), Reader(Invalid, NoAccess));
  }

  lemma Ask0()
    requires Shape(Setup(), At(14))
    ensures Follows(Setup(), At(14), At(15))
  {
    var c, s, t := Setup(), At(14), At(15);
    var s' := AfterStartRound(s, 1, 0);
    Limits.SameRound(s'.rounds[1], t.rounds[1]);
    assert s'.nodes == t.nodes && s'.rounds == t.rounds && s'.mu == t.mu;
    StartRoundFollows(c, s, 1, 0, t);
  }

  lemma Begin0()
    requires Shape(Setup(), At(15))
    ensures Follows(Setup(), At(15), At(16))
  {
    var c, s, t := Setup(), At(15), At(16);
    var s' := AfterBeginRead(c, s, 1, 0);
    Limits.SameRound(s'.rounds[1], t.rounds[1]);
    assert s'.nodes == t.nodes && s'.rounds == t.rounds && s'.mu == t.mu;
    BeginReadFollows(c, s, 1, 0, t);
  }

  lemma Snapshot0()
    requires Shape(Setup(), At(16))
    ensures Follows(Setup(), At(16), At(17))
  {
    var c, s, t := Setup(), At(16), At(17);
    var s' := AfterSnapshotRead(c, s, 1, 0);
    Limits.SameRound(s'.rounds[1], t.rounds[1]);
    Limits.SameView(s'.nodes[0], t.nodes[0]);
    assert s'.nodes == t.nodes && s'.rounds == t.rounds && s'.mu == t.mu;
    SnapshotReadFollows(c, s, 1, 0, t);
  }

  lemma Empty0()
    requires Shape(Setup(), At(17))
    ensures Follows(Setup(), At(17), At(18))
  {
    var c, s, t := Setup(), At(17), At(18);
    var s' := SetStatus(s, 1, 1, P.InFlight(None));
    Limits.SameRound(s'.rounds[1], t.rounds[1]);
    assert s'.nodes == t.nodes && s'.rounds == t.rounds && s'.mu == t.mu;
    AnswerEmptyFollows(c, s, 1, 1, t);
  }

  lemma Receive0()
    requires Shape(Setup(), At(18))
    ensures Follows(Setup(), At(18), At(19))
  {
    var c, s, t := Setup(), At(18), At(19);
    var s' := AfterReceive(s, 1, 0);
    Limits.SameRound(s'.rounds[1], t.rounds[1]);
    assert s'.nodes == t.nodes && s'.rounds == t.rounds && s'.mu == t.mu;
    ReceiveFollows(c, s, 1, 0, t);
  }

  lemma ReceiveEmpty0()
    requires Shape(Setup(), At(19))
    ensures Follows(Setup(), At(19), At(20))
  {
    var c, s, t := Setup(), At(19), At(20);
    var s' := AfterReceive(s, 1, 1);
    Limits.SameRound(s'.rounds[1], t.rounds[1]);
    assert s'.nodes == t.nodes && s'.rounds == t.rounds && s'.mu == t.mu;
    ReceiveFollows(c, s, 1, 1, t);
  }

  lemma Ask2()
    requires Shape(Setup(), At(20))
    ensures Follows(Setup(), At(20), At(21))
  {
    var c, s, t := Setup(), At(20), At(21);
    var s' := AfterStartRound(s, 2, 1);
    Limits.SameRound(s'.rounds[2], t.rounds[2]);
    assert s'.nodes == t.nodes && s'.rounds == t.rounds && s'.mu == t.mu;
    StartRoundFollows(c, s, 2, 1, t);
  }

  lemma Start()
    ensures At(0) == State(Membership.Alone(0), map[0 := Keeper(Write, ReadWrite)], map[], map[], map[0 := [0, 0]],
            [[], []])
    ensures Shape(Setup(), At(0))
  {
    var s := At(0);
    Limits.SameView(s.nodes[0], Keeper(Write, ReadWrite));
    assert s.nodes == map[0 := Keeper(Write, ReadWrite)];
    assert s.synced[0] == [0, 0] && s.log == [[], []];
    assert s.synced == map[0 := [0, 0]];
  }

  lemma JoinedOne()
    ensures Membership.Joined(Membership.Alone(0), 1, 0) == map[0 := [1], 1 := [0]]
  {
    Limits.MeshOfTwo();
  }

  lemma JoinedTwo()
    ensures Membership.CanJoin(map[0 := [1], 1 := [0]], 2, 0)
    ensures Membership.Joined(map[0 := [1], 1 := [0]], 2, 0) == map[0 := [1, 2], 1 := [0, 2], 2 := [1, 0]]
  {
    var conn: map<NodeId, seq<NodeId>> := map[0 := [1], 1 := [0]];
    assert Membership.Lists(conn[0], conn.Keys - {0}) && Membership.Lists(conn[1], conn.Keys - {1});
    Membership.JoinedList(conn, 2, 0, 0);
    Membership.JoinedList(conn, 2, 0, 1);
    Membership.JoinedList(conn, 2, 0, 2);
    var joined := Membership.Joined(conn, 2, 0);
    assert joined.Keys == {0, 1, 2} && joined[0] == [1, 2] && joined[1] == [0, 2] && joined[2] == [1, 0];
  }

  lemma EachFollows(k: nat)
    requires k < 21 && Shape(Setup(), At(k))
    ensures Follows(Setup(), At(k), At(k + 1))
  {
    match k
    case 0 => Join1();
    case 1 => Ask1();
    case 2 => Begin1();
    case 3 => Snapshot1();
    case 4 => Receive1();
    case 5 => Install1();
    case 6 => Finish1();
    case 7 => AskWrite();
    case 8 => FlipOne();
    case 9 => CopyWrite();
    case 10 => ReceiveTaken();
    case 11 => InstallTaken();
    case 12 => FinishTaken();
    case 13 => Join2();
    case 14 => Ask0();
    case 15 => Begin0();
    case 16 => Snapshot0();
    case 17 => Empty0();
    case 18 => Receive0();
    case 19 => ReceiveEmpty0();
    case 20 => Ask2();
  }

  lemma {:induction false} AtReachable(k: nat)
    requires k <= 21
    ensures Reachable(Setup(), At(k))
  {
    if k == 0 {
      InitReachable(Setup(), 0);
    } else {
      AtReachable(k - 1);
      ReachableInv(Setup(), At(k - 1));
      EachFollows(k - 1);
      FollowsReachable(Setup(), At(k - 1), At(k));
    }
  }

  lemma LastState()
    requires Shape(Setup(), At(21))
    ensures CanInstall(At(21), 1) && CanBeginRead(Setup(), At(21), 2, 0) && Peer(Setup(), At(21), 2, 0) == 1
    ensures At(21).rounds[1].kind.ReadRound?
  {
  }

  /** If a page is about to be installed in a read round of `q` when a read answer can take its mutex, a
      deadlock is reachable. */
  lemma DeadlockFollows(c: Config, s: State, q: NodeId, r: NodeId, i: nat, t: State, u: State)
    requires Reachable(c, s) && Shape(c, s) && CanInstall(s, q) && s.rounds[q].kind.ReadRound?
    requires CanBeginRead(c, s, r, i) && Peer(c, s, r, i) == q
    requires t == AfterInstall(c, s, q) && Shape(c, t) && CanBeginRead(c, t, r, i) && u == AfterBeginRead(c, t, r, i)
    ensures Reachable(c, u)
  {
    InstallFollows(c, s, q, t);
    FollowsReachable(c, s, t);
    BeginReadFollows(c, t, r, i, u);
    FollowsReachable(c, t, u);
  }

  /** A reachable state with a deadlocked tracer: node 1 installs page 0, and then the answer to node 2 takes
      its mutex. */
  lemma DeadlockReachable()
    ensures exists s :: Reachable(Setup(), s) && Deadlocked(s, 1)
  {
    var c, s := Setup(), At(21);
    AtReachable(21);
    ReachableInv(c, s);
    LastState();
    DeadlockHere(c, s, 1, 2, 0);
  }

  lemma DeadlockHere(c: Config, s: State, q: NodeId, r: NodeId, i: nat)
    requires Reachable(c, s) && Inv(c, s) && CanInstall(s, q) && s.rounds[q].kind.ReadRound?
    requires CanBeginRead(c, s, r, i) && Peer(c, s, r, i) == q
    ensures exists u :: Reachable(c, u) && Deadlocked(u, q)
  {
    DeadlockArises(c, s, q, r, i);
    var t := AfterInstall(c, s, q);
    DeadlockFollows(c, s, q, r, i, t, AfterBeginRead(c, t, r, i));
  }
}
