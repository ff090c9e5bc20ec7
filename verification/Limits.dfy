/**
 Where the code's guarantees stop: the owner's re-enable is not one atomic step in the source, and
 `sync` covers the first `total` pages only. For both, the exact condition and an example.
 */
module Limits {
  import opened Prelude
  import opened Protection
  import opened PageNode
  import P = PageProtocol
  import C = Cluster
  import Coherence
  import Membership

  // ----- re-enabling without the node's mutex -----

  /** The source checks ownership and then sets the page state without holding the mutex. The second
      half, whenever it comes, keeps the ownership unique exactly when the node still owns the page. */
  lemma LateReenable(initial: seq<Word>, st: P.PageState, n: P.NodeId)
    requires P.Inv(initial, st) && n in st.cells
    ensures (exists l :: P.OnlyAt(P.AfterReenable(st, n), l)) <==> Ownership(st.cells[n].info)
  {
    var l :| P.OwnedAt(st, l);
    if Ownership(st.cells[n].info) {
      SameToken(st, n, l);
    } else {
      SecondToken(st, n, l);
    }
  }

  lemma SameToken(st: P.PageState, n: P.NodeId, l: P.Place)
    requires n in st.cells && Ownership(st.cells[n].info) && P.OnlyAt(st, l)
    ensures P.OnlyAt(P.AfterReenable(st, n), l)
  {
    var st' := P.AfterReenable(st, n);
    forall k ensures P.Holds(st', k) <==> P.Holds(st, k) {}
  }

  lemma SecondToken(st: P.PageState, n: P.NodeId, l: P.Place)
    requires n in st.cells && !Ownership(st.cells[n].info) && P.Holds(st, l)
    ensures !exists k :: P.OnlyAt(P.AfterReenable(st, n), k)
  {
    var st' := P.AfterReenable(st, n);
    assert P.Holds(st', P.AtOwner(n));
    assert P.Holds(st', l) && l != P.AtOwner(n);
  }

  // ----- pages that sync does not cover -----

  /** After a sync a page can be read without a fault exactly when `sync` does not reach it and it could
      be read before; its copy is then as old as it was. */
  lemma AccessAfterSync(c: C.Config, s: C.State, n: C.NodeId, p: nat)
    requires C.Shape(c, s) && C.Running(s, n) && p < c.pages && p < |s.nodes[n].mem|
    ensures C.CanLoad(C.AfterSync(c, s, n), n, p) <==> c.total <= p && C.CanLoad(s, n, p)
    ensures p < |C.AfterSync(c, s, n).nodes[n].mem| && C.AfterSync(c, s, n).nodes[n].mem[p] == s.nodes[n].mem[p]
  {
  }

  const OLD := Copy(0, [0])

  function StaleConfig(total: nat): C.Config {
    C.Config(1, total, [[0]])
  }

  function ReadRoundOfOne(st: P.Status, data: Option<Copy>, installed: bool): P.Round {
    P.Round(P.ReadRound, 0, [0], [st], data, installed)
  }

  /** Nodes 0 and 1 know each other, node 0 is the master, node 1 has `view`. */
  function Pair(master: NodeView, view: NodeView, rounds: map<C.NodeId, P.Round>, mu: map<C.NodeId, (C.NodeId, nat)>,
                log: seq<P.WriteRecord>): C.State
  {
    C.State(map[0 := [1], 1 := [0]], map[0 := master, 1 := view], rounds, mu, map[0 := [0], 1 := [0]], [log])
  }

  const MASTER := NodeView([Write], [ReadWrite], [OLD])
  const EMPTY := NodeView([Invalid], [NoAccess], [OLD])
  const READER := NodeView([Read], [ReadOnly], [OLD])

  /** The states of a run in which node 1 reads page 0, and then node 0 writes it. */
  function StaleState(k: nat): C.State
    requires k <= 8
  {
    if k == 0 then C.InitState(StaleConfig(0), 0)
    else if k == 1 then Pair(MASTER, EMPTY, map[], map[], [])
    else if k == 2 then Pair(MASTER, EMPTY, map[1 := ReadRoundOfOne(P.Asked, None, false)], map[], [])
    else if k == 3 then Pair(MASTER, EMPTY, map[1 := ReadRoundOfOne(P.Reading, None, false)], map[0 := (1, 0)], [])
    else if k == 4 then Pair(MASTER, EMPTY, map[1 := ReadRoundOfOne(P.InFlight(Some(OLD)), None, false)], map[], [])
    else if k == 5 then Pair(MASTER, EMPTY, map[1 := ReadRoundOfOne(P.Done, Some(OLD), false)], map[], [])
    else if k == 6 then
      Pair(MASTER, EMPTY.(hw := [ReadWrite]), map[1 := ReadRoundOfOne(P.Done, Some(OLD), true)], map[], [])
    else if k == 7 then Pair(MASTER, READER, map[], map[], [])
    else Pair(MASTER.(mem := [Copy(1, [7])]), READER, map[], map[], [P.WriteRecord(0, 0, 7, [7])])
  }

  function StaleStep(k: nat): C.Step
    requires k < 8
  {
    [C.Join(1, 0, [OLD]), C.StartRound(1, 0), C.BeginRead(1, 0), C.SnapshotRead(1, 0), C.Receive(1, 0),
     C.Install(1), C.FinishRead(1), C.Store(0, 0, 0, 7)][k]
  }

  ghost predicate Leads(total: nat, k: nat)
    requires k < 8
  {
    var c, s := StaleConfig(total), StaleState(k);
    C.Shape(c, s) && C.Enabled(c, s, StaleStep(k)) && C.Next(c, s, StaleStep(k)) == StaleState(k + 1)
  }

  lemma SameView(v: NodeView, w: NodeView)
    requires v.info == w.info && v.hw == w.hw && v.mem == w.mem
    ensures v == w
  {
  }

  lemma SameRound(v: P.Round, w: P.Round)
    requires v.kind == w.kind && v.page == w.page && v.peers == w.peers && v.status == w.status
    requires v.data == w.data && v.installed == w.installed
    ensures v == w
  {
  }

  lemma MeshOfTwo()
    ensures Membership.Joined(Membership.Alone(0), 1, 0) == map[0 := [1], 1 := [0]]
  {
    var conn := Membership.Alone(0);
    Membership.JoinedList(conn, 1, 0, 0);
    Membership.JoinedList(conn, 1, 0, 1);
    SamePair(Membership.Joined(conn, 1, 0), [1], [0]);
  }

  lemma SamePair(m: map<C.NodeId, seq<C.NodeId>>, a: seq<C.NodeId>, b: seq<C.NodeId>)
    requires m.Keys == {0, 1} && m[0] == a && m[1] == b
    ensures m == map[0 := a, 1 := b]
  {
  }

  lemma ViewsOfTwo(total: nat)
    ensures InitView([OLD], false) == EMPTY
    ensures C.InitState(StaleConfig(total), 0) == C.State(Membership.Alone(0), map[0 := MASTER], map[], map[],
            map[0 := [0]], [[]])
  {
    var s := C.InitState(StaleConfig(total), 0);
    SameView(InitView([OLD], false), EMPTY);
    assert s.nodes[0].mem == [OLD];
    SameView(s.nodes[0], MASTER);
    assert s.nodes == map[0 := MASTER];
    assert s.synced[0] == [0];
    assert s.synced == map[0 := [0]];
  }

  lemma Lead0(total: nat)
    ensures Leads(total, 0)
  {
    MeshOfTwo();
    ViewsOfTwo(total);
    var s := StaleState(0);
    assert C.CanJoin(StaleConfig(total), s, 1, 0, [OLD]);
    var s' := C.AfterJoin(StaleConfig(total), s, 1, 0, [OLD]);
    assert s'.synced[1] == [0];
    assert s'.synced == map[0 := [0], 1 := [0]];
    assert s'.nodes == map[0 := MASTER, 1 := EMPTY];
  }

  lemma Lead1(total: nat)
    ensures Leads(total, 1)
  {
    var c, s, t := StaleConfig(total), StaleState(1), StaleState(2);
    var s' := C.Next(c, s, StaleStep(1));
    SameRound(s'.rounds[1], t.rounds[1]);
    assert s'.nodes == t.nodes;
    assert s'.rounds == t.rounds && s'.mu == t.mu;
  }

  lemma StaleShape2(total: nat)
    ensures C.Shape(StaleConfig(total), StaleState(2))
  {
  }

  lemma BeginAtMaster(total: nat)
    ensures C.Shape(StaleConfig(total), StaleState(2))
    ensures C.AfterBeginRead(StaleConfig(total), StaleState(2), 1, 0) == StaleState(3)
  {
    var s, t := StaleState(2), StaleState(3);
    StaleShape2(total);
    var s' := C.AfterBeginRead(StaleConfig(total), s, 1, 0);
    SameRound(s'.rounds[1], t.rounds[1]);
    assert s'.nodes == t.nodes;
    assert s'.rounds == t.rounds && s'.mu == t.mu;
  }

  lemma Lead2(total: nat)
    ensures Leads(total, 2)
  {
    BeginAtMaster(total);
    assert C.CanBeginRead(StaleConfig(total), StaleState(2), 1, 0);
  }

  lemma StaleShape3(total: nat)
    ensures C.Shape(StaleConfig(total), StaleState(3))
  {
  }

  lemma AnswerOfMaster(total: nat)
    ensures C.Shape(StaleConfig(total), StaleState(3))
    ensures C.AfterSnapshotRead(StaleConfig(total), StaleState(3), 1, 0) == StaleState(4)
  {
    var s, t := StaleState(3), StaleState(4);
    StaleShape3(total);
    var s' := C.AfterSnapshotRead(StaleConfig(total), s, 1, 0);
    SameRound(s'.rounds[1], t.rounds[1]);
    SameView(s'.nodes[0], t.nodes[0]);
    assert s'.nodes == t.nodes;
    assert s'.rounds == t.rounds && s'.mu == t.mu;
  }

  lemma Lead3(total: nat)
    ensures Leads(total, 3)
  {
    AnswerOfMaster(total);
    assert C.CanSnapshotRead(StaleConfig(total), StaleState(3), 1, 0);
  }

  lemma ReceiveAtReader(total: nat)
    ensures C.Shape(StaleConfig(total), StaleState(4)) && C.CanReceive(StaleState(4), 1, 0)
    ensures C.AfterReceive(StaleState(4), 1, 0) == StaleState(5)
  {
    var s, t := StaleState(4), StaleState(5);
    assert C.Shape(StaleConfig(total), s);
    var s' := C.AfterReceive(s, 1, 0);
    SameRound(s'.rounds[1], t.rounds[1]);
    assert s'.rounds == t.rounds;
  }

  lemma Lead4(total: nat)
    ensures Leads(total, 4)
  {
    ReceiveAtReader(total);
  }

  lemma StaleShape5(total: nat)
    ensures C.Shape(StaleConfig(total), StaleState(5))
  {
  }

  lemma InstallAtReader(total: nat)
    ensures C.Shape(StaleConfig(total), StaleState(5))
    ensures C.AfterInstall(StaleConfig(total), StaleState(5), 1) == StaleState(6)
  {
    var s, t := StaleState(5), StaleState(6);
    StaleShape5(total);
    var s' := C.AfterInstall(StaleConfig(total), s, 1);
    SameRound(s'.rounds[1], t.rounds[1]);
    SameView(s'.nodes[1], t.nodes[1]);
    assert s'.nodes == t.nodes;
    assert s'.rounds == t.rounds && s'.mu == t.mu;
  }

  lemma Lead5(total: nat)
    ensures Leads(total, 5)
  {
    InstallAtReader(total);
    assert C.CanInstall(StaleState(5), 1);
  }

  lemma FinishAtReader(total: nat)
    ensures C.Shape(StaleConfig(total), StaleState(6))
    ensures C.AfterFinishRead(StaleConfig(total), StaleState(6), 1) == StaleState(7)
  {
    var s, t := StaleState(6), StaleState(7);
    assert C.Shape(StaleConfig(total), s);
    var s' := C.AfterFinishRead(StaleConfig(total), s, 1);
    SameView(s'.nodes[1], t.nodes[1]);
    assert s'.nodes == t.nodes;
    assert s'.rounds == t.rounds && s'.mu == t.mu;
  }

  lemma Lead6(total: nat)
    ensures Leads(total, 6)
  {
    FinishAtReader(total);
  }

  lemma StoreAtMaster(total: nat)
    ensures C.Shape(StaleConfig(total), StaleState(7)) && C.CanStore(StaleConfig(total), StaleState(7), 0, 0, 0)
    ensures C.AfterStore(StaleState(7), 0, 0, 0, 7) == StaleState(8)
  {
    var s, t := StaleState(7), StaleState(8);
    assert C.Shape(StaleConfig(total), s);
    var s' := C.AfterStore(s, 0, 0, 0, 7);
    assert [0][0 := 7] == [7];
    SameView(s'.nodes[0], t.nodes[0]);
    assert s'.log[0] == t.log[0];
    assert s'.log == t.log;
    assert s'.nodes == t.nodes;
  }

  lemma Lead7(total: nat)
    ensures Leads(total, 7)
  {
    StoreAtMaster(total);
  }

  lemma EachLeads(total: nat, k: nat)
    requires k < 8
    ensures Leads(total, k)
  {
    if k == 0 { Lead0(total); } else if k == 1 { Lead1(total); } else if k == 2 { Lead2(total); }
    else if k == 3 { Lead3(total); } else if k == 4 { Lead4(total); } else if k == 5 { Lead5(total); }
    else if k == 6 { Lead6(total); } else { Lead7(total); }
  }

  lemma {:induction false} StaleReachable(total: nat, k: nat)
    requires k <= 8
    ensures Coherence.Reachable(StaleConfig(total), StaleState(k))
  {
    if k == 0 {
      Coherence.InitReachable(StaleConfig(total), 0);
    } else {
      StaleReachable(total, k - 1);
      EachLeads(total, k - 1);
      Coherence.FollowsReachable(StaleConfig(total), StaleState(k - 1), StaleState(k));
    }
  }

  /** Beyond `total` a node can go on reading an old copy even after a sync that follows the newer
      write: here with `total` 0, and with two nodes and one page. */
  lemma StaleAfterSync()
    ensures Coherence.Reachable(StaleConfig(0), StaleState(8))
    ensures C.Shape(StaleConfig(0), StaleState(8)) && C.Running(StaleState(8), 1)
    ensures C.CanLoad(C.AfterSync(StaleConfig(0), StaleState(8), 1), 1, 0)
    ensures C.Load(C.AfterSync(StaleConfig(0), StaleState(8), 1), 1, 0, 0) == 0
    ensures P.Contents([0], StaleState(8).log[0], 1) == [7]
  {
    StaleReachable(0, 8);
    StaleShape8();
    AccessAfterSync(StaleConfig(0), StaleState(8), 1, 0);
  }

  lemma StaleShape8()
    ensures C.Shape(StaleConfig(0), StaleState(8))
  {
  }

  // ----- the race, in a run -----

  /** Node 1 has read the page, node 0, its owner, has synced, and then node 1 asks for the page to write. */
  function RaceState(asked: bool): C.State {
    Pair(MASTER.(hw := [NoAccess]), READER,
         if asked then map[1 := P.Round(P.WriteRound, 0, [0], [P.Asked], None, false)] else map[], map[], [])
  }

  lemma RaceSync()
    ensures C.Shape(StaleConfig(1), StaleState(7)) && C.Running(StaleState(7), 0)
    ensures C.AfterSync(StaleConfig(1), StaleState(7), 0) == RaceState(false)
  {
    var s, t := StaleState(7), RaceState(false);
    assert C.Shape(StaleConfig(1), s);
    var s' := C.AfterSync(StaleConfig(1), s, 0);
    SameView(s'.nodes[0], t.nodes[0]);
    assert s'.nodes == t.nodes;
    assert s'.synced[0] == [0];
    assert s'.synced == t.synced;
  }

  lemma RaceStart()
    ensures C.Shape(StaleConfig(1), RaceState(false)) && C.CanStartRound(StaleConfig(1), RaceState(false), 1, 0)
    ensures C.AfterStartRound(RaceState(false), 1, 0) == RaceState(true)
  {
    var s, t := RaceState(false), RaceState(true);
    assert C.Shape(StaleConfig(1), s);
    SameRound(C.AfterStartRound(s, 1, 0).rounds[1], t.rounds[1]);
    assert C.AfterStartRound(s, 1, 0).rounds == t.rounds;
  }

  lemma RaceReachable()
    ensures Coherence.Reachable(StaleConfig(1), RaceState(true))
  {
    var c := StaleConfig(1);
    StaleReachable(1, 7);
    RaceSync();
    assert C.Enabled(c, StaleState(7), C.Sync(0)) && C.Next(c, StaleState(7), C.Sync(0)) == RaceState(false);
    Coherence.FollowsReachable(c, StaleState(7), RaceState(false));
    RaceStart();
    assert C.Enabled(c, RaceState(false), C.StartRound(1, 0));
    assert C.Next(c, RaceState(false), C.StartRound(1, 0)) == RaceState(true);
    Coherence.FollowsReachable(c, RaceState(false), RaceState(true));
  }

  /** Then node 0 gives the page up to that request, and after that sets its own state. */
  function RaceLate(): C.State {
    Pair(MASTER, READER, map[1 := P.Round(P.WriteRound, 0, [0], [P.Flipped], None, false)], map[], [])
  }

  lemma RaceFlips()
    ensures C.Shape(StaleConfig(1), RaceState(true)) && C.CanReenable(StaleConfig(1), RaceState(true), 0, 0)
    ensures C.CanFlipWrite(StaleConfig(1), RaceState(true), 1, 0)
    ensures C.AfterReenable(C.AfterFlipWrite(StaleConfig(1), RaceState(true), 1, 0), 0, 0) == RaceLate()
  {
    var s := RaceState(true);
    assert C.Shape(StaleConfig(1), s);
    var s' := C.AfterReenable(C.AfterFlipWrite(StaleConfig(1), s, 1, 0), 0, 0);
    SameView(s'.nodes[0], MASTER);
    SameRound(s'.rounds[1], RaceLate().rounds[1]);
    assert s'.nodes == RaceLate().nodes && s'.rounds == RaceLate().rounds;
  }

  lemma TwoOwners()
    ensures C.Shape(StaleConfig(1), RaceLate())
    ensures P.Holds(C.PageOf(StaleConfig(1), RaceLate(), 0), P.AtOwner(0))
    ensures P.Holds(C.PageOf(StaleConfig(1), RaceLate(), 0), P.AtFlipped(1, 0))
  {
  }

  /** A reachable state in which node 0 passes the check of its re-enable; then the request of node 1 takes
      the page from it; and then it sets its state. Two places own the page. */
  lemma ReenableRace()
    ensures var c, s := StaleConfig(1), RaceState(true);
            && Coherence.Reachable(c, s) && C.Shape(c, s) && C.CanReenable(c, s, 0, 0) && C.CanFlipWrite(c, s, 1, 0)
            && var late := C.AfterReenable(C.AfterFlipWrite(c, s, 1, 0), 0, 0);
               C.Shape(c, late) && P.Holds(C.PageOf(c, late, 0), P.AtOwner(0))
               && P.Holds(C.PageOf(c, late, 0), P.AtFlipped(1, 0))
  {
    RaceReachable();
    RaceFlips();
    TwoOwners();
  }
}
