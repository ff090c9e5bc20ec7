/**
 A run in which the lock changes hands: the master takes it, writes a protected word and gives it up; a second
 node joins, gets the page, takes the lock, and loads what the master wrote.
 */
module LockTrace {
  import opened Prelude
  import opened Protection
  import opened PageNode
  import opened Cluster
  import opened Coherence
  import opened ReleaseConsistency
  import Limits
  import LockProgress
  import Membership
  import P = PageProtocol

  const C0 := Copy(0, [0, 0])
  const C1 := Copy(1, [1, 0])
  const C2 := Copy(2, [1, 7])
  const C3 := Copy(3, [0, 7])
  const C4 := Copy(4, [1, 7])

  /** One page of two words: the lock word and the word it protects. */
  function Setup(): Config {
    Config(1, 1, [[0, 0]])
  }

  function TheLock(): Lock {
    Lock(0, 0, {(0, 1)})
  }

  /** The first `k` writes of the run. */
  function Writes(k: nat): seq<P.WriteRecord> {
    var w0, w1 := P.WriteRecord(0, 0, 1, [1, 0]), P.WriteRecord(0, 1, 7, [1, 7]);
    var w2, w3 := P.WriteRecord(0, 0, 0, [0, 7]), P.WriteRecord(1, 0, 1, [1, 7]);
    if k == 0 then [] else if k == 1 then [w0] else if k == 2 then [w0, w1] else if k == 3 then [w0, w1, w2]
    else [w0, w1, w2, w3]
  }

  function One(info: Prot, hw: Hw, copy: Copy): NodeView {
    NodeView([info], [hw], [copy])
  }

  function Single(v: NodeView, synced: nat, k: nat): State {
    State(Membership.Alone(0), map[0 := v], map[], map[], map[0 := [synced]], [Writes(k)])
  }

  function Both(v0: NodeView, v1: NodeView, rounds: map<NodeId, Round>, mu: map<NodeId, (NodeId, nat)>,
                synced: nat, k: nat): State {
    State(map[0 := [1], 1 := [0]], map[0 := v0, 1 := v1], rounds, mu, map[0 := [1], 1 := [synced]], [Writes(k)])
  }

  function ToRead(status: P.Status, data: Option<Copy>, installed: bool): map<NodeId, Round> {
    map[1 := P.Round(P.ReadRound, 0, [0], [status], data, installed)]
  }

  function ToWrite(status: P.Status, data: Option<Copy>, installed: bool): map<NodeId, Round> {
    map[1 := P.Round(P.WriteRound, 0, [0], [status], data, installed)]
  }

  /** While the lock is free, after the first holder. */
  function Between(v0: NodeView, v1: NodeView, rounds: map<NodeId, Round>, mu: map<NodeId, (NodeId, nat)>): System {
    System(Both(v0, v1, rounds, mu, 0, 3), map[0 := Outside], [2])
  }

  function After(pc: Pc): map<NodeId, Pc> {
    map[0 := Outside, 1 := pc]
  }

  const OWNER := One(Write, ReadWrite, C3)
  const READER := One(Read, ReadOnly, C3)
  const NEWCOMER := One(Invalid, NoAccess, C0)

  function At(k: nat): System {
    if k == 0 then System(Single(One(Write, ReadWrite, C0), 0, 0), map[], [0])
    else if k == 1 then System(Single(One(Write, ReadWrite, C1), 0, 1), map[0 := Acquired], [0])
    else if k == 2 then System(Single(One(Write, NoAccess, C1), 1, 1), map[0 := Critical], [0])
    else if k == 3 then System(Single(One(Write, ReadWrite, C1), 1, 1), map[0 := Critical], [0])
    else if k == 4 then System(Single(One(Write, ReadWrite, C2), 1, 2), map[0 := Critical], [0])
    else if k == 5 then System(Single(One(Write, ReadWrite, C3), 1, 3), map[0 := Outside], [2])
    else if k == 6 then Between(OWNER, NEWCOMER, map[], map[])
    else if k == 7 then Between(OWNER, NEWCOMER, ToRead(P.Asked, None, false), map[])
    else if k == 8 then Between(OWNER, NEWCOMER, ToRead(P.Reading, None, false), map[0 := (1, 0)])
    else if k == 9 then Between(OWNER, NEWCOMER, ToRead(P.InFlight(Some(C3)), None, false), map[])
    else if k == 10 then Between(OWNER, NEWCOMER, ToRead(P.Done, Some(C3), false), map[])
    else if k == 11 then Between(OWNER, One(Invalid, ReadWrite, C3), ToRead(P.Done, Some(C3), true), map[])
    else if k == 12 then Between(OWNER, READER, map[], map[])
    else if k == 13 then Between(OWNER, READER, ToWrite(P.Asked, None, false), map[])
    else if k == 14 then Between(One(Read, ReadWrite, C3), READER, ToWrite(P.Flipped, None, false), map[])
    else if k == 15 then Between(READER, READER, ToWrite(P.InFlight(Some(C3)), None, false), map[])
    else if k == 16 then Between(READER, READER, ToWrite(P.Done, Some(C3), false), map[])
    else if k == 17 then Between(READER, One(Read, ReadWrite, C3), ToWrite(P.Done, Some(C3), true), map[])
    else if k == 18 then Between(READER, One(Write, ReadWrite, C3), map[], map[])
    else if k == 19 then System(Both(READER, One(Write, ReadWrite, C4), map[], map[], 0, 4), After(Acquired), [2])
    else if k == 20 then System(Both(READER, One(Write, NoAccess, C4), map[], map[], 4, 4), After(Critical), [2])
    else System(Both(READER, One(Write, ReadWrite, C4), map[], map[], 4, 4), After(Critical), [2])
  }

  function StepAt(k: nat): LockStep {
    if k == 0 then TestAndSet(0)
    else if k == 1 then FinishLock(0)
    else if k == 2 then Protocol(Cluster.Reenable(0, 0))
    else if k == 3 then Protocol(Store(0, 0, 1, 7))
    else if k == 4 then Unlock(0)
    else if k == 5 then Protocol(Join(1, 0, [C0]))
    else if k == 6 then Protocol(StartRound(1, 0))
    else if k == 7 then Protocol(BeginRead(1, 0))
    else if k == 8 then Protocol(SnapshotRead(1, 0))
    else if k == 9 then Protocol(Receive(1, 0))
    else if k == 10 then Protocol(Install(1))
    else if k == 11 then Protocol(FinishRead(1))
    else if k == 12 then Protocol(StartRound(1, 0))
    else if k == 13 then Protocol(FlipWrite(1, 0))
    else if k == 14 then Protocol(SnapshotWrite(1, 0))
    else if k == 15 then Protocol(Receive(1, 0))
    else if k == 16 then Protocol(Install(1))
    else if k == 17 then Protocol(FinishWrite(1))
    else if k == 18 then TestAndSet(1)
    else if k == 19 then FinishLock(1)
    else Protocol(Cluster.Reenable(1, 0))
  }

  // ----- each state follows the one before -----

  ghost predicate Leads(k: nat) {
    && Shape(Setup(), At(k).s) && LockEnabled(Setup(), TheLock(), At(k), StepAt(k))
    && LockNext(Setup(), TheLock(), At(k), StepAt(k)) == At(k + 1)
  }

  lemma SameState(s: State, t: State)
    requires s.conn == t.conn && s.nodes == t.nodes && s.rounds == t.rounds && s.mu == t.mu
    requires s.synced == t.synced && s.log == t.log
    ensures s == t
  {
  }

  /** What the join of node 1 does. */
  lemma NodeJoins(s: State, t: State)
    requires s == Single(OWNER, 1, 3) && t == Both(OWNER, NEWCOMER, map[], map[], 0, 3)
    requires Shape(Setup(), s)
    ensures Cluster.CanJoin(Setup(), s, 1, 0, [C0]) && AfterJoin(Setup(), s, 1, 0, [C0]) == t
  {
    Limits.MeshOfTwo();
    var s' := AfterJoin(Setup(), s, 1, 0, [C0]);
    assert s'.synced[1] == [0];
    Limits.SameView(s'.nodes[1], t.nodes[1]);
    SameState(s', t);
  }

  lemma ByProtocol(k: nat, y: System, step: Step, z: System)
    requires y == At(k) && z == At(k + 1) && StepAt(k) == Protocol(step) && !step.Store? && Shape(Setup(), y.s)
    requires Enabled(Setup(), y.s, step) && Next(Setup(), y.s, step) == z.s && z == y.(s := z.s)
    ensures Leads(k)
  {
  }

  lemma Lead0()
    requires Shape(Setup(), At(0).s)
    ensures Leads(0)
  {
    var c, s, t := Setup(), At(0).s, At(1).s;
    assert s.nodes[0].mem[0].words[0 := 1] == t.nodes[0].mem[0].words;
    var s' := AfterStore(s, 0, 0, 0, 1);
    Limits.SameView(s'.nodes[0], t.nodes[0]);
    assert s'.log[0] == t.log[0];
    SameState(s', t);
  }

  lemma Lead1()
    requires Shape(Setup(), At(1).s)
    ensures Leads(1)
  {
    var c, s, t := Setup(), At(1).s, At(2).s;
    var s' := AfterSync(c, s, 0);
    Limits.SameView(s'.nodes[0], t.nodes[0]);
    assert s'.synced[0] == t.synced[0];
    SameState(s', t);
  }

  lemma Lead2()
    requires Shape(Setup(), At(2).s)
    ensures Leads(2)
  {
    var c, s, t := Setup(), At(2).s, At(3).s;
    var s' := AfterReenable(s, 0, 0);
    Limits.SameView(s'.nodes[0], t.nodes[0]);
    SameState(s', t);
    ByProtocol(2, At(2), Cluster.Reenable(0, 0), At(3));
  }

  lemma Lead3()
    requires Shape(Setup(), At(3).s)
    ensures Leads(3)
  {
    var c, s, t := Setup(), At(3).s, At(4).s;
    assert s.nodes[0].mem[0].words[1 := 7] == t.nodes[0].mem[0].words;
    var s' := AfterStore(s, 0, 0, 1, 7);
    Limits.SameView(s'.nodes[0], t.nodes[0]);
    assert s'.log[0] == t.log[0];
    SameState(s', t);
  }

  lemma Lead4()
    requires Shape(Setup(), At(4).s)
    ensures Leads(4)
  {
    var c, s, t := Setup(), At(4).s, At(5).s;
    assert s.nodes[0].mem[0].words[0 := 0] == t.nodes[0].mem[0].words;
    var s' := AfterStore(s, 0, 0, 0, 0);
    Limits.SameView(s'.nodes[0], t.nodes[0]);
    assert s'.log[0] == t.log[0];
    SameState(s', t);
    assert LockNext(c, TheLock(), At(4), StepAt(4)).released == [2];
  }

  lemma Lead5()
    requires Shape(Setup(), At(5).s)
    ensures Leads(5)
  {
    var s, t := At(5).s, At(6).s;
    NodeJoins(s, t);
    ByProtocol(5, At(5), Join(1, 0, [C0]), At(6));
  }

  lemma ReadAsked(s: State, t: State)
    requires s == Both(OWNER, NEWCOMER, map[], map[], 0, 3)
    requires t == Both(OWNER, NEWCOMER, ToRead(P.Asked, None, false), map[], 0, 3)
    requires Shape(Setup(), s)
    ensures Enabled(Setup(), s, StartRound(1, 0)) && Next(Setup(), s, StartRound(1, 0)) == t
  {
    var s' := AfterStartRound(s, 1, 0);
    Limits.SameRound(s'.rounds[1], t.rounds[1]);
    SameState(s', t);
  }

  lemma Lead6()
    requires Shape(Setup(), At(6).s)
    ensures Leads(6)
  {
    var s, t := At(6).s, At(7).s;
    ReadAsked(s, t);
    ByProtocol(6, At(6), StartRound(1, 0), At(7));
  }

  lemma ReadBegun(s: State, t: State)
    requires s == Both(OWNER, NEWCOMER, ToRead(P.Asked, None, false), map[], 0, 3)
    requires t == Both(OWNER, NEWCOMER, ToRead(P.Reading, None, false), map[0 := (1, 0)], 0, 3)
    requires Shape(Setup(), s)
    ensures Enabled(Setup(), s, BeginRead(1, 0)) && Next(Setup(), s, BeginRead(1, 0)) == t
  {
    var s' := AfterBeginRead(Setup(), s, 1, 0);
    Limits.SameRound(s'.rounds[1], t.rounds[1]);
    SameState(s', t);
  }

  lemma Lead7()
    requires Shape(Setup(), At(7).s)
    ensures Leads(7)
  {
    var s, t := At(7).s, At(8).s;
    ReadBegun(s, t);
    ByProtocol(7, At(7), BeginRead(1, 0), At(8));
  }

  lemma PageShared(s: State, t: State)
    requires s == Both(OWNER, NEWCOMER, ToRead(P.Reading, None, false), map[0 := (1, 0)], 0, 3)
    requires t == Both(OWNER, NEWCOMER, ToRead(P.InFlight(Some(C3)), None, false), map[], 0, 3)
    requires Shape(Setup(), s)
    ensures Enabled(Setup(), s, SnapshotRead(1, 0)) && Next(Setup(), s, SnapshotRead(1, 0)) == t
  {
    var s' := AfterSnapshotRead(Setup(), s, 1, 0);
    Limits.SameRound(s'.rounds[1], t.rounds[1]);
    Limits.SameView(s'.nodes[0], t.nodes[0]);
    SameState(s', t);
  }

  lemma Lead8()
    requires Shape(Setup(), At(8).s)
    ensures Leads(8)
  {
    var s, t := At(8).s, At(9).s;
    PageShared(s, t);
    ByProtocol(8, At(8), SnapshotRead(1, 0), At(9));
  }

  lemma SharedReceived(s: State, t: State)
    requires s == Both(OWNER, NEWCOMER, ToRead(P.InFlight(Some(C3)), None, false), map[], 0, 3)
    requires t == Both(OWNER, NEWCOMER, ToRead(P.Done, Some(C3), false), map[], 0, 3)
    requires Shape(Setup(), s)
    ensures Enabled(Setup(), s, Receive(1, 0)) && Next(Setup(), s, Receive(1, 0)) == t
  {
    var s' := AfterReceive(s, 1, 0);
    Limits.SameRound(s'.rounds[1], t.rounds[1]);
    SameState(s', t);
  }

  lemma Lead9()
    requires Shape(Setup(), At(9).s)
    ensures Leads(9)
  {
    var s, t := At(9).s, At(10).s;
    SharedReceived(s, t);
    ByProtocol(9, At(9), Receive(1, 0), At(10));
  }

  lemma SharedInstalled(s: State, t: State)
    requires s == Both(OWNER, NEWCOMER, ToRead(P.Done, Some(C3), false), map[], 0, 3)
    requires t == Both(OWNER, One(Invalid, ReadWrite, C3), ToRead(P.Done, Some(C3), true), map[], 0, 3)
    requires Shape(Setup(), s)
    ensures Enabled(Setup(), s, Install(1)) && Next(Setup(), s, Install(1)) == t
  {
    var s' := AfterInstall(Setup(), s, 1);
    Limits.SameRound(s'.rounds[1], t.rounds[1]);
    Limits.SameView(s'.nodes[1], t.nodes[1]);
    SameState(s', t);
  }

  lemma Lead10()
    requires Shape(Setup(), At(10).s)
    ensures Leads(10)
  {
    var s, t := At(10).s, At(11).s;
    SharedInstalled(s, t);
    ByProtocol(10, At(10), Install(1), At(11));
  }

  lemma ReadDone(s: State, t: State)
    requires s == Both(OWNER, One(Invalid, ReadWrite, C3), ToRead(P.Done, Some(C3), true), map[], 0, 3)
    requires t == Both(OWNER, READER, map[], map[], 0, 3)
    requires Shape(Setup(), s)
    ensures Enabled(Setup(), s, FinishRead(1)) && Next(Setup(), s, FinishRead(1)) == t
  {
    var s' := AfterFinishRead(Setup(), s, 1);
    Limits.SameView(s'.nodes[1], t.nodes[1]);
    SameState(s', t);
  }

  lemma Lead11()
    requires Shape(Setup(), At(11).s)
    ensures Leads(11)
  {
    var s, t := At(11).s, At(12).s;
    ReadDone(s, t);
    ByProtocol(11, At(11), FinishRead(1), At(12));
  }

  lemma WriteAsked(s: State, t: State)
    requires s == Both(OWNER, READER, map[], map[], 0, 3)
    requires t == Both(OWNER, READER, ToWrite(P.Asked, None, false), map[], 0, 3)
    requires Shape(Setup(), s)
    ensures Enabled(Setup(), s, StartRound(1, 0)) && Next(Setup(), s, StartRound(1, 0)) == t
  {
    var s' := AfterStartRound(s, 1, 0);
    Limits.SameRound(s'.rounds[1], t.rounds[1]);
    SameState(s', t);
  }

  lemma Lead12()
    requires Shape(Setup(), At(12).s)
    ensures Leads(12)
  {
    var s, t := At(12).s, At(13).s;
    WriteAsked(s, t);
    ByProtocol(12, At(12), StartRound(1, 0), At(13));
  }

  lemma GivenUp(s: State, t: State)
    requires s == Both(OWNER, READER, ToWrite(P.Asked, None, false), map[], 0, 3)
    requires t == Both(One(Read, ReadWrite, C3), READER, ToWrite(P.Flipped, None, false), map[], 0, 3)
    requires Shape(Setup(), s)
    ensures Enabled(Setup(), s, FlipWrite(1, 0)) && Next(Setup(), s, FlipWrite(1, 0)) == t
  {
    var s' := AfterFlipWrite(Setup(), s, 1, 0);
    Limits.SameRound(s'.rounds[1], t.rounds[1]);
    Limits.SameView(s'.nodes[0], t.nodes[0]);
    SameState(s', t);
  }

  lemma Lead13()
    requires Shape(Setup(), At(13).s)
    ensures Leads(13)
  {
    var s, t := At(13).s, At(14).s;
    GivenUp(s, t);
    ByProtocol(13, At(13), FlipWrite(1, 0), At(14));
  }

  lemma PageSent(s: State, t: State)
    requires s == Both(One(Read, ReadWrite, C3), READER, ToWrite(P.Flipped, None, false), map[], 0, 3)
    requires t == Both(READER, READER, ToWrite(P.InFlight(Some(C3)), None, false), map[], 0, 3)
    requires Shape(Setup(), s)
    ensures Enabled(Setup(), s, SnapshotWrite(1, 0)) && Next(Setup(), s, SnapshotWrite(1, 0)) == t
  {
    var s' := AfterSnapshotWrite(Setup(), s, 1, 0);
    Limits.SameRound(s'.rounds[1], t.rounds[1]);
    Limits.SameView(s'.nodes[0], t.nodes[0]);
    SameState(s', t);
  }

  lemma Lead14()
    requires Shape(Setup(), At(14).s)
    ensures Leads(14)
  {
    var s, t := At(14).s, At(15).s;
    PageSent(s, t);
    ByProtocol(14, At(14), SnapshotWrite(1, 0), At(15));
  }

  lemma SentReceived(s: State, t: State)
    requires s == Both(READER, READER, ToWrite(P.InFlight(Some(C3)), None, false), map[], 0, 3)
    requires t == Both(READER, READER, ToWrite(P.Done, Some(C3), false), map[], 0, 3)
    requires Shape(Setup(), s)
    ensures Enabled(Setup(), s, Receive(1, 0)) && Next(Setup(), s, Receive(1, 0)) == t
  {
    var s' := AfterReceive(s, 1, 0);
    Limits.SameRound(s'.rounds[1], t.rounds[1]);
    SameState(s', t);
  }

  lemma Lead15()
    requires Shape(Setup(), At(15).s)
    ensures Leads(15)
  {
    var s, t := At(15).s, At(16).s;
    SentReceived(s, t);
    ByProtocol(15, At(15), Receive(1, 0), At(16));
  }

  lemma SentInstalled(s: State, t: State)
    requires s == Both(READER, READER, ToWrite(P.Done, Some(C3), false), map[], 0, 3)
    requires t == Both(READER, One(Read, ReadWrite, C3), ToWrite(P.Done, Some(C3), true), map[], 0, 3)
    requires Shape(Setup(), s)
    ensures Enabled(Setup(), s, Install(1)) && Next(Setup(), s, Install(1)) == t
  {
    var s' := AfterInstall(Setup(), s, 1);
    Limits.SameRound(s'.rounds[1], t.rounds[1]);
    Limits.SameView(s'.nodes[1], t.nodes[1]);
    SameState(s', t);
  }

  lemma Lead16()
    requires Shape(Setup(), At(16).s)
    ensures Leads(16)
  {
    var s, t := At(16).s, At(17).s;
    SentInstalled(s, t);
    ByProtocol(16, At(16), Install(1), At(17));
  }

  lemma WriteDone(s: State, t: State)
    requires s == Both(READER, One(Read, ReadWrite, C3), ToWrite(P.Done, Some(C3), true), map[], 0, 3)
    requires t == Both(READER, One(Write, ReadWrite, C3), map[], map[], 0, 3)
    requires Shape(Setup(), s)
    ensures Enabled(Setup(), s, FinishWrite(1)) && Next(Setup(), s, FinishWrite(1)) == t
  {
    var s' := AfterFinishWrite(Setup(), s, 1);
    Limits.SameView(s'.nodes[1], t.nodes[1]);
    SameState(s', t);
  }

  lemma Lead17()
    requires Shape(Setup(), At(17).s)
    ensures Leads(17)
  {
    var s, t := At(17).s, At(18).s;
    WriteDone(s, t);
    ByProtocol(17, At(17), FinishWrite(1), At(18));
  }

  lemma Lead18()
    requires Shape(Setup(), At(18).s)
    ensures Leads(18)
  {
    var c, s, t := Setup(), At(18).s, At(19).s;
    assert s.nodes[1].mem[0].words[0 := 1] == t.nodes[1].mem[0].words;
    var s' := AfterStore(s, 1, 0, 0, 1);
    Limits.SameView(s'.nodes[1], t.nodes[1]);
    assert s'.log[0] == t.log[0];
    SameState(s', t);
  }

  lemma Lead19()
    requires Shape(Setup(), At(19).s)
    ensures Leads(19)
  {
    var c, s, t := Setup(), At(19).s, At(20).s;
    var s' := AfterSync(c, s, 1);
    Limits.SameView(s'.nodes[1], t.nodes[1]);
    assert s'.synced[1] == t.synced[1];
    SameState(s', t);
  }

  lemma Lead20()
    requires Shape(Setup(), At(20).s)
    ensures Leads(20)
  {
    var c, s, t := Setup(), At(20).s, At(21).s;
    var s' := AfterReenable(s, 1, 0);
    Limits.SameView(s'.nodes[1], t.nodes[1]);
    SameState(s', t);
    ByProtocol(20, At(20), Cluster.Reenable(1, 0), At(21));
  }

  lemma FirstLeads(k: nat)
    requires k < 10 && Shape(Setup(), At(k).s)
    ensures Leads(k)
  {
    if k == 0 { Lead0(); } else if k == 1 { Lead1(); } else if k == 2 { Lead2(); } else if k == 3 { Lead3(); }
    else if k == 4 { Lead4(); } else if k == 5 { Lead5(); } else if k == 6 { Lead6(); } else if k == 7 { Lead7(); }
    else if k == 8 { Lead8(); } else { Lead9(); }
  }

  lemma LastLeads(k: nat)
    requires 10 <= k < 21 && Shape(Setup(), At(k).s)
    ensures Leads(k)
  {
    if k == 10 { Lead10(); } else if k == 11 { Lead11(); } else if k == 12 { Lead12(); }
    else if k == 13 { Lead13(); } else if k == 14 { Lead14(); } else if k == 15 { Lead15(); }
    else if k == 16 { Lead16(); } else if k == 17 { Lead17(); } else if k == 18 { Lead18(); }
    else if k == 19 { Lead19(); } else { Lead20(); }
  }

  lemma EachLeads(k: nat)
    requires k < 21 && Shape(Setup(), At(k).s)
    ensures Leads(k)
  {
    if k < 10 { FirstLeads(k); } else { LastLeads(k); }
  }

  // ----- the run -----

  lemma StartReachable()
    ensures LockReachable(Setup(), TheLock(), At(0)) && Shape(Setup(), At(0).s)
  {
    var c, k, y := Setup(), TheLock(), LockInit(Setup(), 0);
    Limits.SameView(y.s.nodes[0], At(0).s.nodes[0]);
    assert y.s.synced[0] == [0] && y.s.log == [[]];
    SameState(y.s, At(0).s);
    assert y == At(0);
    var trace := [y];
    assert forall i: nat :: LockFollowsAt(c, k, trace, i);
    assert LockHistory(c, k, trace) && trace[|trace| - 1] == y;
    LockReachableInv(c, k, y);
  }

  lemma {:induction false} AtReachable(k: nat)
    requires k <= 21
    ensures LockReachable(Setup(), TheLock(), At(k)) && Shape(Setup(), At(k).s)
  {
    if k == 0 {
      StartReachable();
    } else {
      AtReachable(k - 1);
      EachLeads(k - 1);
      LockProgress.StepReachable(Setup(), TheLock(), At(k - 1), StepAt(k - 1), At(k));
    }
  }

  function StepsFrom(k: nat): seq<LockStep>
    decreases 21 - k
  {
    if k >= 21 then [] else [StepAt(k)] + StepsFrom(k + 1)
  }

  lemma {:induction false} RunFrom(k: nat)
    requires k <= 21
    ensures LockRun(Setup(), TheLock(), At(k), StepsFrom(k), At(21))
    decreases 21 - k
  {
    if k < 21 {
      AtReachable(k);
      EachLeads(k);
      RunFrom(k + 1);
      assert StepsFrom(k)[1..] == StepsFrom(k + 1);
    }
  }

  /** The lock is held by two nodes in turn, and the second loads what the first wrote under it: 7, where there was
      0 at first. */
  lemma LockChangesHands()
    ensures var c, k := Setup(), TheLock();
            exists y, steps, z ::
              && LockReachable(c, k, y) && PcOf(y, 0) == Critical && (0, 1) in k.protected
              && LockRun(c, k, y, [Protocol(Store(0, 0, 1, 7))] + steps, z)
              && PcOf(z, 1) == Critical && PcOf(z, 0) == Outside && CanLoad(z.s, 1, 0)
              && |z.s.nodes[1].mem| == 1 && |z.s.nodes[1].mem[0].words| == 2 && Load(z.s, 1, 0, 1) == 7
              && c.initial == [[0, 0]]
  {
    AtReachable(3);
    RunFrom(3);
    LastState();
    assert StepsFrom(3) == [Protocol(Store(0, 0, 1, 7))] + StepsFrom(4);
  }

  lemma LastState()
    ensures var z := At(21);
            && PcOf(At(3), 0) == Critical && PcOf(z, 1) == Critical && PcOf(z, 0) == Outside
            && CanLoad(z.s, 1, 0) && |z.s.nodes[1].mem| == 1 && |z.s.nodes[1].mem[0].words| == 2
            && Load(z.s, 1, 0, 1) == 7
  {
  }
}
