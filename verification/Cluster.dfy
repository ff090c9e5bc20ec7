/**
 The ownership protocol of a whole cluster as a transition system. Each step is one atomic action of
 a child process, of a tracer, or of a thread that answers a remote request; steps of different
 nodes interleave freely. Seen from any one page, every step is a step of `PageProtocol` or no step.
 */
module Cluster {
  import opened Prelude
  import opened Protection
  import opened PageNode
  import Membership
  import P = PageProtocol

  type NodeId = Membership.NodeId
  type Round = P.Round

  /** `total` is the number of pages that `sync` covers; `initial` is what the master starts with. */
  datatype Config = Config(pages: nat, total: nat, initial: seq<seq<Word>>)

  datatype State = State(
    conn: map<NodeId, seq<NodeId>>,
    nodes: map<NodeId, NodeView>,
    rounds: map<NodeId, Round>,         // present while a node's tracer is inside a round
    mu: map<NodeId, (NodeId, nat)>,     // the read request that holds a node's mutex
    synced: map<NodeId, seq<nat>>,      // history: length of each page's log at the node's last sync
    log: seq<seq<P.WriteRecord>>)       // history: all writes made to each page, in order

  datatype Step =
    | Join(n: NodeId, via: NodeId, contents: seq<Copy>)
    | Store(n: NodeId, p: nat, off: nat, val: Word)
    | Sync(n: NodeId)
    | Reenable(n: NodeId, p: nat)
    | StartRound(n: NodeId, p: nat)
    | AnswerEmpty(r: NodeId, i: nat)
    | FlipWrite(r: NodeId, i: nat)
    | SnapshotWrite(r: NodeId, i: nat)
    | BeginRead(r: NodeId, i: nat)
    | SnapshotRead(r: NodeId, i: nat)
    | Receive(r: NodeId, i: nat)
    | Install(r: NodeId)
    | FinishWrite(r: NodeId)
    | FinishRead(r: NodeId)
    | FailRound(r: NodeId)

  // ----- initial states -----

  ghost predicate ValidConfig(c: Config) {
    |c.initial| == c.pages
  }

  /** The cluster as the master starts it; all other nodes join later. */
  function InitState(c: Config, master: NodeId): State
    requires |c.initial| == c.pages
  {
    State(Membership.Alone(master),
          map[master := InitView(seq(c.pages, i requires 0 <= i < |c.initial| => Copy(0, c.initial[i])), true)],
          map[], map[], map[master := seq(c.pages, _ => 0)], seq(c.pages, _ => []))
  }

  // ----- shape -----

  ghost predicate Shape(c: Config, s: State) {
    && ValidConfig(c)
    && |s.log| == c.pages
    && s.conn.Keys == s.nodes.Keys == s.synced.Keys
    && s.rounds.Keys <= s.nodes.Keys && s.mu.Keys <= s.nodes.Keys
    && (forall n :: n in s.nodes ==> Sized(s.nodes[n], c.pages) && |s.synced[n]| == c.pages)
    && (forall r :: r in s.rounds ==> RoundShape(c, s, s.rounds[r]))
  }

  ghost predicate RoundShape(c: Config, s: State, rd: Round) {
    && rd.page < c.pages
    && |rd.peers| == |rd.status|
    && (forall i :: 0 <= i < |rd.peers| ==> rd.peers[i] in s.nodes)
  }

  /** The child executes user code only while its tracer is not inside a round. */
  ghost predicate Running(s: State, n: NodeId) {
    n in s.nodes && n !in s.rounds
  }

  /** The tracer takes page requests from its child's signals, or while it polls inside a round; it
      does not while it blocks on the node's mutex at the end of a read round. */
  ghost predicate TracerMayServe(s: State, q: NodeId) {
    q in s.rounds ==> !(s.rounds[q].installed && s.rounds[q].kind.ReadRound?)
  }

  // ----- the steps: when each can happen, and what it does -----

  function SetStatus(s: State, r: NodeId, i: nat, st: P.Status): State
    requires r in s.rounds && i < |s.rounds[r].status|
  {
    s.(rounds := s.rounds[r := s.rounds[r].(status := s.rounds[r].status[i := st])])
  }

  function SetNode(s: State, n: NodeId, v: NodeView): State {
    s.(nodes := s.nodes[n := v])
  }

  ghost predicate CanJoin(c: Config, s: State, n: NodeId, via: NodeId, contents: seq<Copy>)
    requires Shape(c, s)
  {
    && Membership.CanJoin(s.conn, n, via) && |contents| == c.pages
    && (forall i :: 0 <= i < c.pages ==> |contents[i].words| == |c.initial[i]| && contents[i].version == 0)
  }

  function AfterJoin(c: Config, s: State, n: NodeId, via: NodeId, contents: seq<Copy>): State
    requires Membership.CanJoin(s.conn, n, via)
  {
    s.(conn := Membership.Joined(s.conn, n, via),
       nodes := s.nodes[n := InitView(contents, false)],
       synced := s.synced[n := seq(c.pages, _ => 0)])
  }

  ghost predicate CanStore(c: Config, s: State, n: NodeId, p: nat, off: nat)
    requires Shape(c, s)
  {
    Running(s, n) && p < c.pages && s.nodes[n].hw[p].ReadWrite? && off < |s.nodes[n].mem[p].words|
  }

  function AfterStore(s: State, n: NodeId, p: nat, off: nat, val: Word): State
    requires n in s.nodes && p < |s.nodes[n].mem| && off < |s.nodes[n].mem[p].words| && p < |s.log|
  {
    SetNode(s, n, StoreWord(s.nodes[n], p, off, val, |s.log[p]| + 1))
      .(log := s.log[p := s.log[p] + [P.WriteRecord(n, off, val, s.nodes[n].mem[p].words[off := val])]])
  }

  function AfterSync(c: Config, s: State, n: NodeId): State
    requires n in s.nodes && n in s.synced && |s.log| == |s.synced[n]| == c.pages
  {
    SetNode(s, n, RevokeAll(s.nodes[n], c.total))
      .(synced := s.synced[n := seq(c.pages, i requires 0 <= i < c.pages =>
                                      if i < c.total then |s.log[i]| else s.synced[n][i])])
  }

  /** The child touched a page it has no sufficient access to. */
  ghost predicate Faulted(c: Config, s: State, n: NodeId, p: nat)
    requires Shape(c, s)
  {
    Running(s, n) && p < c.pages && !s.nodes[n].hw[p].ReadWrite?
  }

  ghost predicate CanReenable(c: Config, s: State, n: NodeId, p: nat)
    requires Shape(c, s)
  {
    Faulted(c, s, n, p) && FaultKind(s.nodes[n].info[p]).Reenabled?
  }

  function AfterReenable(s: State, n: NodeId, p: nat): State
    requires n in s.nodes && p < |s.nodes[n].info| && p < |s.nodes[n].hw|
  {
    SetNode(s, n, PageNode.Reenable(s.nodes[n], p))
  }

  ghost predicate CanStartRound(c: Config, s: State, n: NodeId, p: nat)
    requires Shape(c, s)
  {
    Faulted(c, s, n, p) && !FaultKind(s.nodes[n].info[p]).Reenabled?
  }

  function AfterStartRound(s: State, n: NodeId, p: nat): State
    requires n in s.nodes && n in s.conn && p < |s.nodes[n].info|
  {
    s.(rounds := s.rounds[n := P.NewRound(s.nodes[n].info[p], p, s.conn[n])])
  }

  /** Request `i` of round `r` has the given kind and status. */
  ghost predicate Pending(s: State, r: NodeId, i: nat, kind: P.Kind, st: P.Status) {
    r in s.rounds && i < |s.rounds[r].status| && s.rounds[r].kind == kind && s.rounds[r].status[i] == st
  }

  /** The peer asked by request `i` of round `r`. */
  ghost function Peer(c: Config, s: State, r: NodeId, i: nat): (q: NodeId)
    requires Shape(c, s) && r in s.rounds && i < |s.rounds[r].status|
    ensures q in s.nodes
  {
    assert RoundShape(c, s, s.rounds[r]);
    s.rounds[r].peers[i]
  }

  ghost predicate PeerOwns(c: Config, s: State, r: NodeId, i: nat)
    requires Shape(c, s) && r in s.rounds && i < |s.rounds[r].status|
  {
    assert RoundShape(c, s, s.rounds[r]);
    Ownership(s.nodes[Peer(c, s, r, i)].info[s.rounds[r].page])
  }

  ghost predicate CanAnswerEmpty(c: Config, s: State, r: NodeId, i: nat)
    requires Shape(c, s)
  {
    && r in s.rounds && i < |s.rounds[r].status| && s.rounds[r].status[i].Asked?
    && Peer(c, s, r, i) !in s.mu && !PeerOwns(c, s, r, i)
  }

  ghost predicate CanFlipWrite(c: Config, s: State, r: NodeId, i: nat)
    requires Shape(c, s)
  {
    Pending(s, r, i, P.WriteRound, P.Asked) && Peer(c, s, r, i) !in s.mu && PeerOwns(c, s, r, i)
  }

  ghost function AfterFlipWrite(c: Config, s: State, r: NodeId, i: nat): State
    requires Shape(c, s) && r in s.rounds && i < |s.rounds[r].status|
  {
    assert RoundShape(c, s, s.rounds[r]);
    var q := Peer(c, s, r, i);
    SetNode(SetStatus(s, r, i, P.Flipped), q, Flip(s.nodes[q], s.rounds[r].page))
  }

  ghost predicate CanSnapshotWrite(c: Config, s: State, r: NodeId, i: nat)
    requires Shape(c, s)
  {
    Pending(s, r, i, P.WriteRound, P.Flipped) && TracerMayServe(s, Peer(c, s, r, i))
  }

  ghost function AfterSnapshotWrite(c: Config, s: State, r: NodeId, i: nat): State
    requires Shape(c, s) && r in s.rounds && i < |s.rounds[r].status|
  {
    assert RoundShape(c, s, s.rounds[r]);
    var q := Peer(c, s, r, i);
    var p := s.rounds[r].page;
    SetNode(SetStatus(s, r, i, P.InFlight(Some(s.nodes[q].mem[p]))), q, RevokeWrite(s.nodes[q], p))
  }

  ghost predicate CanBeginRead(c: Config, s: State, r: NodeId, i: nat)
    requires Shape(c, s)
  {
    Pending(s, r, i, P.ReadRound, P.Asked) && Peer(c, s, r, i) !in s.mu && PeerOwns(c, s, r, i)
  }

  ghost function AfterBeginRead(c: Config, s: State, r: NodeId, i: nat): State
    requires Shape(c, s) && r in s.rounds && i < |s.rounds[r].status|
  {
    SetStatus(s, r, i, P.Reading).(mu := s.mu[Peer(c, s, r, i) := (r, i)])
  }

  ghost predicate CanSnapshotRead(c: Config, s: State, r: NodeId, i: nat)
    requires Shape(c, s)
  {
    Pending(s, r, i, P.ReadRound, P.Reading) && TracerMayServe(s, Peer(c, s, r, i))
  }

  ghost function AfterSnapshotRead(c: Config, s: State, r: NodeId, i: nat): State
    requires Shape(c, s) && r in s.rounds && i < |s.rounds[r].status|
  {
    assert RoundShape(c, s, s.rounds[r]);
    var q := Peer(c, s, r, i);
    var p := s.rounds[r].page;
    SetNode(SetStatus(s, r, i, P.InFlight(Some(s.nodes[q].mem[p]))), q, ShareRead(s.nodes[q], p))
      .(mu := s.mu - {q})
  }

  ghost predicate CanReceive(s: State, r: NodeId, i: nat) {
    r in s.rounds && i < |s.rounds[r].status| && s.rounds[r].status[i].InFlight?
  }

  function AfterReceive(s: State, r: NodeId, i: nat): State
    requires r in s.rounds && i < |s.rounds[r].status| && s.rounds[r].status[i].InFlight?
  {
    s.(rounds := s.rounds[r := P.Received(s.rounds[r], i)])
  }

  ghost predicate CanInstall(s: State, r: NodeId) {
    r in s.rounds && P.AllDone(s.rounds[r]) && s.rounds[r].data.Some? && !s.rounds[r].installed
  }

  ghost function AfterInstall(c: Config, s: State, r: NodeId): State
    requires Shape(c, s) && r in s.rounds && s.rounds[r].data.Some?
  {
    assert RoundShape(c, s, s.rounds[r]);
    var rd := s.rounds[r];
    SetNode(s, r, PageNode.Install(s.nodes[r], rd.page, rd.data.value))
      .(rounds := s.rounds[r := rd.(installed := true)])
  }

  ghost predicate CanFinish(s: State, r: NodeId, kind: P.Kind) {
    r in s.rounds && s.rounds[r].installed && s.rounds[r].kind == kind && r !in s.mu
  }

  ghost function AfterFinishWrite(c: Config, s: State, r: NodeId): State
    requires Shape(c, s) && r in s.rounds
  {
    assert RoundShape(c, s, s.rounds[r]);
    SetNode(s, r, MarkWrite(s.nodes[r], s.rounds[r].page)).(rounds := s.rounds - {r})
  }

  ghost function AfterFinishRead(c: Config, s: State, r: NodeId): State
    requires Shape(c, s) && r in s.rounds
  {
    assert RoundShape(c, s, s.rounds[r]);
    SetNode(s, r, MarkRead(s.nodes[r], s.rounds[r].page)).(rounds := s.rounds - {r})
  }

  ghost predicate CanFail(s: State, r: NodeId) {
    r in s.rounds && P.AllDone(s.rounds[r]) && s.rounds[r].data.None?
  }

  ghost predicate Enabled(c: Config, s: State, step: Step)
    requires Shape(c, s)
  {
    match step
    case Join(n, via, contents) => CanJoin(c, s, n, via, contents)
    case Store(n, p, off, _) => CanStore(c, s, n, p, off)
    case Sync(n) => Running(s, n)
    case Reenable(n, p) => CanReenable(c, s, n, p)
    case StartRound(n, p) => CanStartRound(c, s, n, p)
    case AnswerEmpty(r, i) => CanAnswerEmpty(c, s, r, i)
    case FlipWrite(r, i) => CanFlipWrite(c, s, r, i)
    case SnapshotWrite(r, i) => CanSnapshotWrite(c, s, r, i)
    case BeginRead(r, i) => CanBeginRead(c, s, r, i)
    case SnapshotRead(r, i) => CanSnapshotRead(c, s, r, i)
    case Receive(r, i) => CanReceive(s, r, i)
    case Install(r) => CanInstall(s, r)
    case FinishWrite(r) => CanFinish(s, r, P.WriteRound)
    case FinishRead(r) => CanFinish(s, r, P.ReadRound)
    case FailRound(r) => CanFail(s, r)
  }

  ghost function Next(c: Config, s: State, step: Step): State
    requires Shape(c, s) && Enabled(c, s, step)
  {
    match step
    case Join(n, via, contents) => AfterJoin(c, s, n, via, contents)
    case Store(n, p, off, val) => AfterStore(s, n, p, off, val)
    case Sync(n) => AfterSync(c, s, n)
    case Reenable(n, p) => AfterReenable(s, n, p)
    case StartRound(n, p) => AfterStartRound(s, n, p)
    case AnswerEmpty(r, i) => SetStatus(s, r, i, P.InFlight(None))
    case FlipWrite(r, i) => AfterFlipWrite(c, s, r, i)
    case SnapshotWrite(r, i) => AfterSnapshotWrite(c, s, r, i)
    case BeginRead(r, i) => AfterBeginRead(c, s, r, i)
    case SnapshotRead(r, i) => AfterSnapshotRead(c, s, r, i)
    case Receive(r, i) => AfterReceive(s, r, i)
    case Install(r) => AfterInstall(c, s, r)
    case FinishWrite(r) => AfterFinishWrite(c, s, r)
    case FinishRead(r) => AfterFinishRead(c, s, r)
    case FailRound(r) => s.(rounds := s.rounds - {r})
  }

  /** What a load by the child of `n` returns when it does not fault. */
  ghost function Load(s: State, n: NodeId, p: nat, off: nat): Word
    requires n in s.nodes && p < |s.nodes[n].mem| && off < |s.nodes[n].mem[p].words|
  {
    s.nodes[n].mem[p].words[off]
  }

  /** `n` can load from page `p` without a fault. */
  ghost predicate CanLoad(s: State, n: NodeId, p: nat) {
    Running(s, n) && p < |s.nodes[n].hw| && !s.nodes[n].hw[p].NoAccess?
  }

  // ----- one page -----

  /** What page `p` sees of the cluster. */
  ghost function PageOf(c: Config, s: State, p: nat): P.PageState
    requires Shape(c, s) && p < c.pages
  {
    P.PageState(map n | n in s.nodes :: CellOf(c, s, n, p),
                map r | r in s.rounds && s.rounds[r].page == p :: s.rounds[r],
                s.log[p])
  }

  ghost function CellOf(c: Config, s: State, n: NodeId, p: nat): P.Cell
    requires Shape(c, s) && n in s.nodes && p < c.pages
  {
    assert Sized(s.nodes[n], c.pages);
    P.Cell(s.nodes[n].info[p], s.nodes[n].hw[p], s.nodes[n].mem[p], s.synced[n][p])
  }

  // ----- the invariant -----

  /** A node's mutex is held exactly by the read answer in progress there. */
  ghost predicate MutexInv(s: State) {
    && (forall q :: q in s.mu ==> HolderOf(s, q, s.mu[q].0, s.mu[q].1))
    && (forall r, i :: r in s.rounds && 0 <= i < |s.rounds[r].status| && s.rounds[r].status[i].Reading? ==>
          i < |s.rounds[r].peers| && s.rounds[r].peers[i] in s.mu && s.mu[s.rounds[r].peers[i]] == (r, i))
  }

  ghost predicate HolderOf(s: State, q: NodeId, r: NodeId, i: nat) {
    && r in s.rounds && i < |s.rounds[r].status| && i < |s.rounds[r].peers|
    && s.rounds[r].status[i].Reading? && s.rounds[r].peers[i] == q
  }

  ghost predicate PageInv(c: Config, s: State, p: nat)
    requires Shape(c, s) && p < c.pages
  {
    P.Inv(c.initial[p], PageOf(c, s, p))
    && (c.total <= p ==> forall n :: n in s.nodes ==> s.synced[n][p] == 0)
  }

  ghost predicate Inv(c: Config, s: State) {
    && Shape(c, s)
    && (forall p :: 0 <= p < c.pages ==> PageInv(c, s, p))
    && MutexInv(s)
    && Membership.FullMesh(s.conn)
  }

  // ----- runs -----

  ghost predicate ValidRun(c: Config, s: State, steps: seq<Step>)
    requires Shape(c, s)
    decreases |steps|
  {
    steps == [] ||
    (Enabled(c, s, steps[0]) && Shape(c, Next(c, s, steps[0])) && ValidRun(c, Next(c, s, steps[0]), steps[1..]))
  }

  ghost function Run(c: Config, s: State, steps: seq<Step>): State
    requires Shape(c, s) && ValidRun(c, s, steps)
    decreases |steps|
  {
    if steps == [] then s else Run(c, Next(c, s, steps[0]), steps[1..])
  }

  // ----- every step keeps the shape -----

  lemma JoinShape(c: Config, s: State, n: NodeId, via: NodeId, contents: seq<Copy>)
    requires Shape(c, s) && CanJoin(c, s, n, via, contents)
    ensures Shape(c, AfterJoin(c, s, n, via, contents))
  {
  }

  lemma StoreShape(c: Config, s: State, n: NodeId, p0: nat, off: nat, w: Word)
    requires Shape(c, s) && CanStore(c, s, n, p0, off)
    ensures Shape(c, AfterStore(s, n, p0, off, w))
  {
  }

  lemma SyncShape(c: Config, s: State, n: NodeId)
    requires Shape(c, s) && Running(s, n)
    ensures Shape(c, AfterSync(c, s, n))
  {
  }

  lemma ReenableShape(c: Config, s: State, n: NodeId, p0: nat)
    requires Shape(c, s) && CanReenable(c, s, n, p0)
    ensures Shape(c, AfterReenable(s, n, p0))
  {
  }

  lemma PeersKnown(s: State, n: NodeId)
    requires Membership.FullMesh(s.conn) && n in s.conn
    ensures forall i :: 0 <= i < |s.conn[n]| ==> s.conn[n][i] in s.conn && s.conn[n][i] != n
  {
    assert Membership.Lists(s.conn[n], s.conn.Keys - {n});
    forall i | 0 <= i < |s.conn[n]| ensures s.conn[n][i] in s.conn.Keys - {n} {
      assert s.conn[n][i] in s.conn[n];
    }
  }

  lemma StartRoundShape(c: Config, s: State, n: NodeId, p0: nat)
    requires Shape(c, s) && CanStartRound(c, s, n, p0) && Membership.FullMesh(s.conn)
    ensures Shape(c, AfterStartRound(s, n, p0))
  {
    PeersKnown(s, n);
  }

  lemma AnswerEmptyShape(c: Config, s: State, r: NodeId, i: nat)
    requires Shape(c, s) && CanAnswerEmpty(c, s, r, i)
    ensures Shape(c, SetStatus(s, r, i, P.InFlight(None)))
  {
  }

  lemma FlipWriteShape(c: Config, s: State, r: NodeId, i: nat)
    requires Shape(c, s) && CanFlipWrite(c, s, r, i)
    ensures Shape(c, AfterFlipWrite(c, s, r, i))
  {
  }

  lemma SnapshotWriteShape(c: Config, s: State, r: NodeId, i: nat)
    requires Shape(c, s) && CanSnapshotWrite(c, s, r, i)
    ensures Shape(c, AfterSnapshotWrite(c, s, r, i))
  {
  }

  lemma BeginReadShape(c: Config, s: State, r: NodeId, i: nat)
    requires Shape(c, s) && CanBeginRead(c, s, r, i)
    ensures Shape(c, AfterBeginRead(c, s, r, i))
  {
  }

  lemma SnapshotReadShape(c: Config, s: State, r: NodeId, i: nat)
    requires Shape(c, s) && CanSnapshotRead(c, s, r, i)
    ensures Shape(c, AfterSnapshotRead(c, s, r, i))
  {
  }

  lemma ReceiveShape(c: Config, s: State, r: NodeId, i: nat)
    requires Shape(c, s) && CanReceive(s, r, i)
    ensures Shape(c, AfterReceive(s, r, i))
  {
  }

  lemma InstallShape(c: Config, s: State, r: NodeId)
    requires Shape(c, s) && CanInstall(s, r)
    ensures Shape(c, AfterInstall(c, s, r))
  {
  }

  lemma FinishWriteShape(c: Config, s: State, r: NodeId)
    requires Shape(c, s) && CanFinish(s, r, P.WriteRound)
    ensures Shape(c, AfterFinishWrite(c, s, r))
  {
  }

  lemma FinishReadShape(c: Config, s: State, r: NodeId)
    requires Shape(c, s) && CanFinish(s, r, P.ReadRound)
    ensures Shape(c, AfterFinishRead(c, s, r))
  {
  }

  lemma FailRoundShape(c: Config, s: State, r: NodeId)
    requires Shape(c, s) && CanFail(s, r)
    ensures Shape(c, s.(rounds := s.rounds - {r}))
  {
  }

  // ----- every step seen from one page -----

  /** Changing one node's view changes that node's cell only. */
  lemma CellsAfter(c: Config, s: State, s': State, n: NodeId, p: nat)
    requires Shape(c, s) && Shape(c, s') && p < c.pages && n in s'.nodes
    requires s'.nodes == s.nodes[n := s'.nodes[n]] && s'.synced == s.synced[n := s'.synced[n]]
    ensures PageOf(c, s', p).cells == PageOf(c, s, p).cells[n := CellOf(c, s', n, p)]
    ensures n in s.nodes && CellOf(c, s', n, p) == CellOf(c, s, n, p) ==>
            PageOf(c, s', p).cells == PageOf(c, s, p).cells
  {
    var cells', cells := PageOf(c, s', p).cells, PageOf(c, s, p).cells[n := CellOf(c, s', n, p)];
    assert cells'.Keys == cells.Keys;
  }

  /** Changing a round without changing its page changes what that page sees only. */
  lemma RoundsAfter(c: Config, s: State, s': State, r: NodeId, p: nat)
    requires Shape(c, s) && Shape(c, s') && p < c.pages
    requires r in s.rounds && r in s'.rounds && s'.rounds == s.rounds[r := s'.rounds[r]]
    requires s'.rounds[r].page == s.rounds[r].page
    ensures PageOf(c, s', p).rounds ==
            if s.rounds[r].page == p then PageOf(c, s, p).rounds[r := s'.rounds[r]] else PageOf(c, s, p).rounds
  {
  }

  lemma RoundsWithout(c: Config, s: State, s': State, r: NodeId, p: nat)
    requires Shape(c, s) && Shape(c, s') && p < c.pages
    requires r in s.rounds && s'.rounds == s.rounds - {r}
    ensures PageOf(c, s', p).rounds == PageOf(c, s, p).rounds - {r}
    ensures s.rounds[r].page != p ==> PageOf(c, s', p).rounds == PageOf(c, s, p).rounds
  {
  }

  lemma JoinPage(c: Config, s: State, n: NodeId, via: NodeId, contents: seq<Copy>, p: nat)
    requires Shape(c, s) && CanJoin(c, s, n, via, contents) && p < c.pages
    ensures Shape(c, AfterJoin(c, s, n, via, contents))
    ensures n !in PageOf(c, s, p).cells
    ensures PageOf(c, AfterJoin(c, s, n, via, contents), p) == P.AfterJoin(PageOf(c, s, p), n, contents[p])
  {
    JoinShape(c, s, n, via, contents);
    var s' := AfterJoin(c, s, n, via, contents);
    CellsAfter(c, s, s', n, p);
  }

  lemma StorePage(c: Config, s: State, n: NodeId, p0: nat, off: nat, w: Word, p: nat)
    requires Shape(c, s) && CanStore(c, s, n, p0, off) && p < c.pages
    ensures Shape(c, AfterStore(s, n, p0, off, w))
    ensures p == p0 ==> P.CanStore(PageOf(c, s, p), n, off)
    ensures PageOf(c, AfterStore(s, n, p0, off, w), p) ==
              if p == p0 then P.AfterStore(PageOf(c, s, p), n, off, w)
              else PageOf(c, s, p)
  {
    StoreShape(c, s, n, p0, off, w);
    var s' := AfterStore(s, n, p0, off, w);
    CellsAfter(c, s, s', n, p);
    assert !(p == p0) ==> CellOf(c, s', n, p) == CellOf(c, s, n, p);
  }

  lemma SyncPage(c: Config, s: State, n: NodeId, p: nat)
    requires Shape(c, s) && Running(s, n) && p < c.pages
    ensures Shape(c, AfterSync(c, s, n))
    ensures p < c.total ==> P.CanSync(PageOf(c, s, p), n)
    ensures PageOf(c, AfterSync(c, s, n), p) == if p < c.total then P.AfterSync(PageOf(c, s, p), n) else PageOf(c, s, p)
  {
    SyncShape(c, s, n);
    var s' := AfterSync(c, s, n);
    CellsAfter(c, s, s', n, p);
    assert !(p < c.total) ==> CellOf(c, s', n, p) == CellOf(c, s, n, p);
  }

  lemma ReenablePage(c: Config, s: State, n: NodeId, p0: nat, p: nat)
    requires Shape(c, s) && CanReenable(c, s, n, p0) && p < c.pages
    ensures Shape(c, AfterReenable(s, n, p0))
    ensures p == p0 ==> P.CanReenable(PageOf(c, s, p), n)
    ensures PageOf(c, AfterReenable(s, n, p0), p) ==
              if p == p0 then P.AfterReenable(PageOf(c, s, p), n)
              else PageOf(c, s, p)
  {
    ReenableShape(c, s, n, p0);
    var s' := AfterReenable(s, n, p0);
    CellsAfter(c, s, s', n, p);
    assert !(p == p0) ==> CellOf(c, s', n, p) == CellOf(c, s, n, p);
  }

  lemma StartRoundPage(c: Config, s: State, n: NodeId, p0: nat, p: nat)
    requires Shape(c, s) && CanStartRound(c, s, n, p0) && Membership.FullMesh(s.conn) && p < c.pages
    ensures Shape(c, AfterStartRound(s, n, p0))
    ensures p == p0 ==> P.CanStart(PageOf(c, s, p), n, p, s.conn[n])
    ensures PageOf(c, AfterStartRound(s, n, p0), p) ==
              if p == p0 then P.AfterStart(PageOf(c, s, p), n, p, s.conn[n])
              else PageOf(c, s, p)
  {
    StartRoundShape(c, s, n, p0);
    if p == p0 { StartedPage(c, s, n, p); } else { StartedElsewhere(c, s, n, p0, p); }
  }

  lemma StartedPage(c: Config, s: State, n: NodeId, p: nat)
    requires Shape(c, s) && CanStartRound(c, s, n, p) && Membership.FullMesh(s.conn) && p < c.pages
    requires Shape(c, AfterStartRound(s, n, p))
    ensures P.CanStart(PageOf(c, s, p), n, p, s.conn[n])
    ensures PageOf(c, AfterStartRound(s, n, p), p) == P.AfterStart(PageOf(c, s, p), n, p, s.conn[n])
  {
    PeersKnown(s, n);
    var s' := AfterStartRound(s, n, p);
    assert P.AfterStart(PageOf(c, s, p), n, p, s.conn[n]).cells == PageOf(c, s', p).cells;
    assert P.AfterStart(PageOf(c, s, p), n, p, s.conn[n]).rounds == PageOf(c, s', p).rounds;
  }

  lemma StartedElsewhere(c: Config, s: State, n: NodeId, p0: nat, p: nat)
    requires Shape(c, s) && CanStartRound(c, s, n, p0) && p < c.pages && p != p0
    requires Shape(c, AfterStartRound(s, n, p0))
    ensures PageOf(c, AfterStartRound(s, n, p0), p) == PageOf(c, s, p)
  {
    var s' := AfterStartRound(s, n, p0);
    assert PageOf(c, s', p).cells == PageOf(c, s, p).cells;
    assert PageOf(c, s', p).rounds == PageOf(c, s, p).rounds;
  }

  lemma AnswerEmptyPage(c: Config, s: State, r: NodeId, i: nat, p: nat)
    requires Shape(c, s) && CanAnswerEmpty(c, s, r, i) && p < c.pages
    ensures Shape(c, SetStatus(s, r, i, P.InFlight(None)))
    ensures p == s.rounds[r].page ==> P.CanAnswerEmpty(PageOf(c, s, p), r, i)
    ensures PageOf(c, SetStatus(s, r, i, P.InFlight(None)), p) ==
              if p == s.rounds[r].page then P.SetStatus(PageOf(c, s, p), r, i, P.InFlight(None))
              else PageOf(c, s, p)
  {
    AnswerEmptyShape(c, s, r, i);
    var s' := SetStatus(s, r, i, P.InFlight(None));
    RoundsAfter(c, s, s', r, p);
    assert PageOf(c, s', p).cells == PageOf(c, s, p).cells;
  }

  lemma FlipWritePage(c: Config, s: State, r: NodeId, i: nat, p: nat)
    requires Shape(c, s) && CanFlipWrite(c, s, r, i) && MutexInv(s) && p < c.pages
    ensures Shape(c, AfterFlipWrite(c, s, r, i))
    ensures p == s.rounds[r].page ==> P.CanFlip(PageOf(c, s, p), r, i)
    ensures PageOf(c, AfterFlipWrite(c, s, r, i), p) ==
              if p == s.rounds[r].page then P.AfterFlip(PageOf(c, s, p), r, i)
              else PageOf(c, s, p)
  {
    FlipWriteShape(c, s, r, i);
    var s' := AfterFlipWrite(c, s, r, i);
    CellsAfter(c, s, s', Peer(c, s, r, i), p);
    RoundsAfter(c, s, s', r, p);
    assert p != s.rounds[r].page ==> CellOf(c, s', Peer(c, s, r, i), p) == CellOf(c, s, Peer(c, s, r, i), p);
  }

  lemma SnapshotWritePage(c: Config, s: State, r: NodeId, i: nat, p: nat)
    requires Shape(c, s) && CanSnapshotWrite(c, s, r, i) && p < c.pages
    ensures Shape(c, AfterSnapshotWrite(c, s, r, i))
    ensures p == s.rounds[r].page ==> P.Pending(PageOf(c, s, p), r, i, P.WriteRound, P.Flipped)
    ensures PageOf(c, AfterSnapshotWrite(c, s, r, i), p) ==
              if p == s.rounds[r].page then P.AfterSnapshotWrite(PageOf(c, s, p), r, i)
              else PageOf(c, s, p)
  {
    SnapshotWriteShape(c, s, r, i);
    var s' := AfterSnapshotWrite(c, s, r, i);
    CellsAfter(c, s, s', Peer(c, s, r, i), p);
    RoundsAfter(c, s, s', r, p);
    assert p != s.rounds[r].page ==> CellOf(c, s', Peer(c, s, r, i), p) == CellOf(c, s, Peer(c, s, r, i), p);
  }

  lemma BeginReadPage(c: Config, s: State, r: NodeId, i: nat, p: nat)
    requires Shape(c, s) && CanBeginRead(c, s, r, i) && p < c.pages
    ensures Shape(c, AfterBeginRead(c, s, r, i))
    ensures p == s.rounds[r].page ==> P.CanBeginRead(PageOf(c, s, p), r, i)
    ensures PageOf(c, AfterBeginRead(c, s, r, i), p) ==
              if p == s.rounds[r].page then P.SetStatus(PageOf(c, s, p), r, i, P.Reading)
              else PageOf(c, s, p)
  {
    BeginReadShape(c, s, r, i);
    var s' := AfterBeginRead(c, s, r, i);
    RoundsAfter(c, s, s', r, p);
    assert PageOf(c, s', p).cells == PageOf(c, s, p).cells;
  }

  lemma SnapshotReadPage(c: Config, s: State, r: NodeId, i: nat, p: nat)
    requires Shape(c, s) && CanSnapshotRead(c, s, r, i) && p < c.pages
    ensures Shape(c, AfterSnapshotRead(c, s, r, i))
    ensures p == s.rounds[r].page ==> P.Pending(PageOf(c, s, p), r, i, P.ReadRound, P.Reading)
    ensures PageOf(c, AfterSnapshotRead(c, s, r, i), p) ==
              if p == s.rounds[r].page then P.AfterSnapshotRead(PageOf(c, s, p), r, i)
              else PageOf(c, s, p)
  {
    SnapshotReadShape(c, s, r, i);
    var s' := AfterSnapshotRead(c, s, r, i);
    CellsAfter(c, s, s', Peer(c, s, r, i), p);
    RoundsAfter(c, s, s', r, p);
    assert p != s.rounds[r].page ==> CellOf(c, s', Peer(c, s, r, i), p) == CellOf(c, s, Peer(c, s, r, i), p);
  }

  lemma ReceivePage(c: Config, s: State, r: NodeId, i: nat, p: nat)
    requires Shape(c, s) && CanReceive(s, r, i) && p < c.pages
    ensures Shape(c, AfterReceive(s, r, i))
    ensures p == s.rounds[r].page ==> P.CanReceive(PageOf(c, s, p), r, i)
    ensures PageOf(c, AfterReceive(s, r, i), p) ==
              if p == s.rounds[r].page then P.AfterReceive(PageOf(c, s, p), r, i)
              else PageOf(c, s, p)
  {
    ReceiveShape(c, s, r, i);
    var s' := AfterReceive(s, r, i);
    RoundsAfter(c, s, s', r, p);
    assert PageOf(c, s', p).cells == PageOf(c, s, p).cells;
  }

  lemma InstallPage(c: Config, s: State, r: NodeId, p: nat)
    requires Shape(c, s) && CanInstall(s, r) && p < c.pages
    ensures Shape(c, AfterInstall(c, s, r))
    ensures p == s.rounds[r].page ==> P.CanInstall(PageOf(c, s, p), r) && r in PageOf(c, s, p).cells
    ensures PageOf(c, AfterInstall(c, s, r), p) ==
              if p == s.rounds[r].page then P.AfterInstall(PageOf(c, s, p), r)
              else PageOf(c, s, p)
  {
    InstallShape(c, s, r);
    var s' := AfterInstall(c, s, r);
    CellsAfter(c, s, s', r, p);
    RoundsAfter(c, s, s', r, p);
    assert p != s.rounds[r].page ==> CellOf(c, s', r, p) == CellOf(c, s, r, p);
  }

  lemma FinishWritePage(c: Config, s: State, r: NodeId, p: nat)
    requires Shape(c, s) && CanFinish(s, r, P.WriteRound) && p < c.pages
    ensures Shape(c, AfterFinishWrite(c, s, r))
    ensures p == s.rounds[r].page ==> P.CanFinish(PageOf(c, s, p), r, P.WriteRound) && r in PageOf(c, s, p).cells
    ensures PageOf(c, AfterFinishWrite(c, s, r), p) ==
              if p == s.rounds[r].page then P.AfterFinishWrite(PageOf(c, s, p), r)
              else PageOf(c, s, p)
  {
    FinishWriteShape(c, s, r);
    var s' := AfterFinishWrite(c, s, r);
    CellsAfter(c, s, s', r, p);
    RoundsWithout(c, s, s', r, p);
    assert p != s.rounds[r].page ==> CellOf(c, s', r, p) == CellOf(c, s, r, p);
  }

  lemma FinishReadPage(c: Config, s: State, r: NodeId, p: nat)
    requires Shape(c, s) && CanFinish(s, r, P.ReadRound) && p < c.pages
    ensures Shape(c, AfterFinishRead(c, s, r))
    ensures p == s.rounds[r].page ==> P.CanFinish(PageOf(c, s, p), r, P.ReadRound) && r in PageOf(c, s, p).cells
    ensures PageOf(c, AfterFinishRead(c, s, r), p) ==
              if p == s.rounds[r].page then P.AfterFinishRead(PageOf(c, s, p), r)
              else PageOf(c, s, p)
  {
    FinishReadShape(c, s, r);
    var s' := AfterFinishRead(c, s, r);
    CellsAfter(c, s, s', r, p);
    RoundsWithout(c, s, s', r, p);
    assert p != s.rounds[r].page ==> CellOf(c, s', r, p) == CellOf(c, s, r, p);
  }

  lemma FailRoundPage(c: Config, s: State, r: NodeId, p: nat)
    requires Shape(c, s) && CanFail(s, r) && p < c.pages
    ensures Shape(c, s.(rounds := s.rounds - {r}))
    ensures p == s.rounds[r].page ==> P.CanFail(PageOf(c, s, p), r)
    ensures PageOf(c, s.(rounds := s.rounds - {r}), p) ==
              if p == s.rounds[r].page then P.AfterFail(PageOf(c, s, p), r)
              else PageOf(c, s, p)
  {
    FailRoundShape(c, s, r);
    var s' := s.(rounds := s.rounds - {r});
    RoundsWithout(c, s, s', r, p);
    assert PageOf(c, s', p).cells == PageOf(c, s, p).cells;
  }

  // ----- every step keeps the mutex holders -----

  /** A request whose status is not `Reading`, before or after, leaves the mutexes consistent. */
  lemma StatusMutex(s: State, s': State, r: NodeId, i: nat)
    requires MutexInv(s) && s'.mu == s.mu
    requires r in s.rounds && i < |s.rounds[r].status| && !s.rounds[r].status[i].Reading?
    requires r in s'.rounds && s'.rounds == s.rounds[r := s'.rounds[r]] && s'.rounds[r].peers == s.rounds[r].peers
    requires |s'.rounds[r].status| == |s.rounds[r].status| && !s'.rounds[r].status[i].Reading?
    requires forall j :: 0 <= j < |s.rounds[r].status| && j != i ==> s'.rounds[r].status[j] == s.rounds[r].status[j]
    ensures MutexInv(s')
  {
  }

  /** So does a round none of whose requests is `Reading`. */
  lemma RoundMutex(s: State, s': State, r: NodeId)
    requires MutexInv(s) && s'.mu == s.mu
    requires r in s.rounds ==> forall i :: 0 <= i < |s.rounds[r].status| ==> !s.rounds[r].status[i].Reading?
    requires forall x :: x != r ==>
               && (x in s.rounds <==> x in s'.rounds)
               && (x in s.rounds ==> s'.rounds[x] == s.rounds[x])
    requires r in s'.rounds ==> forall i :: 0 <= i < |s'.rounds[r].status| ==> !s'.rounds[r].status[i].Reading?
    ensures MutexInv(s')
  {
  }

  /** A read answer takes a free mutex. */
  lemma BeginReadMutex(s: State, s': State, r: NodeId, i: nat, q: NodeId)
    requires MutexInv(s) && q !in s.mu && s'.mu == s.mu[q := (r, i)]
    requires r in s.rounds && i < |s.rounds[r].status| && i < |s.rounds[r].peers| && s.rounds[r].peers[i] == q
    requires s'.rounds == s.rounds[r := s.rounds[r].(status := s.rounds[r].status[i := P.Reading])]
    ensures MutexInv(s')
  {
    forall x | x in s'.mu ensures HolderOf(s', x, s'.mu[x].0, s'.mu[x].1) {
      if x != q { assert HolderOf(s, x, s.mu[x].0, s.mu[x].1); }
    }
  }

  lemma SnapshotReadMutex(c: Config, s: State, r: NodeId, i: nat)
    requires Shape(c, s) && MutexInv(s) && CanSnapshotRead(c, s, r, i)
    ensures MutexInv(AfterSnapshotRead(c, s, r, i))
  {
  }

  /** All requests of a round that installed its page are done. */
  lemma InstalledDone(c: Config, s: State, r: NodeId)
    requires Inv(c, s) && r in s.rounds && s.rounds[r].installed
    ensures P.AllDone(s.rounds[r])
  {
    var p := s.rounds[r].page;
    assert RoundShape(c, s, s.rounds[r]);
    assert PageInv(c, s, p);
    assert P.RoundInv(c.initial[p], PageOf(c, s, p), r);
  }

  // ----- every step keeps the invariant -----

  lemma JoinInv(c: Config, s: State, n: NodeId, via: NodeId, contents: seq<Copy>)
    requires Inv(c, s) && CanJoin(c, s, n, via, contents)
    ensures Inv(c, AfterJoin(c, s, n, via, contents))
  {
    JoinShape(c, s, n, via, contents);
    var s' := AfterJoin(c, s, n, via, contents);
    Membership.JoinKeepsFullMesh(s.conn, n, via);
    forall p | 0 <= p < c.pages ensures PageInv(c, s', p) {
      assert PageInv(c, s, p);
      JoinPageInv(c, s, n, via, contents, s', p);
    }
  }

  lemma JoinPageInv(c: Config, s: State, n: NodeId, via: NodeId, contents: seq<Copy>, s': State, p: nat)
    requires Shape(c, s) && CanJoin(c, s, n, via, contents) && p < c.pages && PageInv(c, s, p)
    requires s' == AfterJoin(c, s, n, via, contents) && Shape(c, s')
    ensures PageInv(c, s', p)
  {
    JoinPage(c, s, n, via, contents, p);
    P.StepInv(c.initial[p], PageOf(c, s, p), P.Join(n, contents[p]));
  }

  lemma StoreInv(c: Config, s: State, n: NodeId, p0: nat, off: nat, w: Word)
    requires Inv(c, s) && CanStore(c, s, n, p0, off)
    ensures Inv(c, AfterStore(s, n, p0, off, w))
  {
    StoreShape(c, s, n, p0, off, w);
    var s' := AfterStore(s, n, p0, off, w);
    forall p | 0 <= p < c.pages ensures PageInv(c, s', p) {
      assert PageInv(c, s, p);
      StorePage(c, s, n, p0, off, w, p);
      if p == p0 { P.StepInv(c.initial[p], PageOf(c, s, p), P.Store(n, off, w)); }
    }
  }

  lemma SyncInv(c: Config, s: State, n: NodeId)
    requires Inv(c, s) && Running(s, n)
    ensures Inv(c, AfterSync(c, s, n))
  {
    SyncShape(c, s, n);
    var s' := AfterSync(c, s, n);
    forall p | 0 <= p < c.pages ensures PageInv(c, s', p) {
      assert PageInv(c, s, p);
      SyncPage(c, s, n, p);
      if p < c.total { P.StepInv(c.initial[p], PageOf(c, s, p), P.Sync(n)); }
    }
  }

  lemma ReenableInv(c: Config, s: State, n: NodeId, p0: nat)
    requires Inv(c, s) && CanReenable(c, s, n, p0)
    ensures Inv(c, AfterReenable(s, n, p0))
  {
    ReenableShape(c, s, n, p0);
    var s' := AfterReenable(s, n, p0);
    forall p | 0 <= p < c.pages ensures PageInv(c, s', p) {
      assert PageInv(c, s, p);
      ReenablePage(c, s, n, p0, p);
      if p == p0 { P.StepInv(c.initial[p], PageOf(c, s, p), P.Reenable(n)); }
    }
  }

  lemma StartRoundInv(c: Config, s: State, n: NodeId, p0: nat)
    requires Inv(c, s) && CanStartRound(c, s, n, p0)
    ensures Inv(c, AfterStartRound(s, n, p0))
  {
    StartRoundShape(c, s, n, p0);
    var s' := AfterStartRound(s, n, p0);
    RoundMutex(s, s', n);
    forall p | 0 <= p < c.pages ensures PageInv(c, s', p) {
      assert PageInv(c, s, p);
      StartRoundPage(c, s, n, p0, p);
      if p == p0 { P.StepInv(c.initial[p], PageOf(c, s, p), P.Start(n, p, s.conn[n])); }
    }
  }

  lemma AnswerEmptyInv(c: Config, s: State, r: NodeId, i: nat)
    requires Inv(c, s) && CanAnswerEmpty(c, s, r, i)
    ensures Inv(c, SetStatus(s, r, i, P.InFlight(None)))
  {
    AnswerEmptyShape(c, s, r, i);
    var s' := SetStatus(s, r, i, P.InFlight(None));
    StatusMutex(s, s', r, i);
    forall p | 0 <= p < c.pages ensures PageInv(c, s', p) {
      assert PageInv(c, s, p);
      AnswerEmptyPage(c, s, r, i, p);
      if p == s.rounds[r].page { P.StepInv(c.initial[p], PageOf(c, s, p), P.AnswerEmpty(r, i)); }
    }
  }

  lemma FlipWriteInv(c: Config, s: State, r: NodeId, i: nat)
    requires Inv(c, s) && CanFlipWrite(c, s, r, i)
    ensures Inv(c, AfterFlipWrite(c, s, r, i))
  {
    FlipWriteShape(c, s, r, i);
    var s' := AfterFlipWrite(c, s, r, i);
    StatusMutex(s, s', r, i);
    forall p | 0 <= p < c.pages ensures PageInv(c, s', p) {
      assert PageInv(c, s, p);
      FlipWritePage(c, s, r, i, p);
      if p == s.rounds[r].page { P.StepInv(c.initial[p], PageOf(c, s, p), P.Flip(r, i)); }
    }
  }

  lemma SnapshotWriteInv(c: Config, s: State, r: NodeId, i: nat)
    requires Inv(c, s) && CanSnapshotWrite(c, s, r, i)
    ensures Inv(c, AfterSnapshotWrite(c, s, r, i))
  {
    SnapshotWriteShape(c, s, r, i);
    var s' := AfterSnapshotWrite(c, s, r, i);
    StatusMutex(s, s', r, i);
    forall p | 0 <= p < c.pages ensures PageInv(c, s', p) {
      assert PageInv(c, s, p);
      SnapshotWritePage(c, s, r, i, p);
      if p == s.rounds[r].page { P.StepInv(c.initial[p], PageOf(c, s, p), P.SnapshotWrite(r, i)); }
    }
  }

  lemma BeginReadInv(c: Config, s: State, r: NodeId, i: nat)
    requires Inv(c, s) && CanBeginRead(c, s, r, i)
    ensures Inv(c, AfterBeginRead(c, s, r, i))
  {
    BeginReadShape(c, s, r, i);
    var s' := AfterBeginRead(c, s, r, i);
    BeginReadMutex(s, s', r, i, Peer(c, s, r, i));
    forall p | 0 <= p < c.pages ensures PageInv(c, s', p) {
      assert PageInv(c, s, p);
      BeginReadPage(c, s, r, i, p);
      if p == s.rounds[r].page { P.StepInv(c.initial[p], PageOf(c, s, p), P.BeginRead(r, i)); }
    }
  }

  lemma SnapshotReadInv(c: Config, s: State, r: NodeId, i: nat)
    requires Inv(c, s) && CanSnapshotRead(c, s, r, i)
    ensures Inv(c, AfterSnapshotRead(c, s, r, i))
  {
    SnapshotReadShape(c, s, r, i);
    var s' := AfterSnapshotRead(c, s, r, i);
    SnapshotReadMutex(c, s, r, i);
    forall p | 0 <= p < c.pages ensures PageInv(c, s', p) {
      assert PageInv(c, s, p);
      SnapshotReadPage(c, s, r, i, p);
      if p == s.rounds[r].page { P.StepInv(c.initial[p], PageOf(c, s, p), P.SnapshotRead(r, i)); }
    }
  }

  lemma ReceiveInv(c: Config, s: State, r: NodeId, i: nat)
    requires Inv(c, s) && CanReceive(s, r, i)
    ensures Inv(c, AfterReceive(s, r, i))
  {
    ReceiveShape(c, s, r, i);
    var s' := AfterReceive(s, r, i);
    StatusMutex(s, s', r, i);
    forall p | 0 <= p < c.pages ensures PageInv(c, s', p) {
      assert PageInv(c, s, p);
      ReceivePage(c, s, r, i, p);
      if p == s.rounds[r].page { P.StepInv(c.initial[p], PageOf(c, s, p), P.Receive(r, i)); }
    }
  }

  lemma InstallInv(c: Config, s: State, r: NodeId)
    requires Inv(c, s) && CanInstall(s, r)
    ensures Inv(c, AfterInstall(c, s, r))
  {
    InstallShape(c, s, r);
    var s' := AfterInstall(c, s, r);
    RoundMutex(s, s', r);
    forall p | 0 <= p < c.pages ensures PageInv(c, s', p) {
      assert PageInv(c, s, p);
      InstallPage(c, s, r, p);
      if p == s.rounds[r].page { P.StepInv(c.initial[p], PageOf(c, s, p), P.Install(r)); }
    }
  }

  lemma FinishWriteInv(c: Config, s: State, r: NodeId)
    requires Inv(c, s) && CanFinish(s, r, P.WriteRound)
    ensures Inv(c, AfterFinishWrite(c, s, r))
  {
    FinishWriteShape(c, s, r);
    var s' := AfterFinishWrite(c, s, r);
    InstalledDone(c, s, r);
    RoundMutex(s, s', r);
    forall p | 0 <= p < c.pages ensures PageInv(c, s', p) {
      assert PageInv(c, s, p);
      FinishWritePage(c, s, r, p);
      if p == s.rounds[r].page { P.StepInv(c.initial[p], PageOf(c, s, p), P.FinishWrite(r)); }
    }
  }

  lemma FinishReadInv(c: Config, s: State, r: NodeId)
    requires Inv(c, s) && CanFinish(s, r, P.ReadRound)
    ensures Inv(c, AfterFinishRead(c, s, r))
  {
    FinishReadShape(c, s, r);
    var s' := AfterFinishRead(c, s, r);
    InstalledDone(c, s, r);
    RoundMutex(s, s', r);
    forall p | 0 <= p < c.pages ensures PageInv(c, s', p) {
      assert PageInv(c, s, p);
      FinishReadPage(c, s, r, p);
      if p == s.rounds[r].page { P.StepInv(c.initial[p], PageOf(c, s, p), P.FinishRead(r)); }
    }
  }

  lemma FailRoundInv(c: Config, s: State, r: NodeId)
    requires Inv(c, s) && CanFail(s, r)
    ensures Inv(c, s.(rounds := s.rounds - {r}))
  {
    FailRoundShape(c, s, r);
    var s' := s.(rounds := s.rounds - {r});
    RoundMutex(s, s', r);
    forall p | 0 <= p < c.pages ensures PageInv(c, s', p) {
      assert PageInv(c, s, p);
      FailRoundPage(c, s, r, p);
      if p == s.rounds[r].page { P.StepInv(c.initial[p], PageOf(c, s, p), P.Fail(r)); }
    }
  }

  // ----- every run keeps the invariant -----

  /** One step keeps the invariant. */
  lemma StepInv(c: Config, s: State, step: Step)
    requires Inv(c, s) && Enabled(c, s, step)
    ensures Inv(c, Next(c, s, step))
  {
    if step.Join? || step.Store? || step.Sync? || step.Reenable? || step.StartRound? {
      ChildStepInv(c, s, step);
    } else {
      RoundStepInv(c, s, step);
    }
  }

  lemma ChildStepInv(c: Config, s: State, step: Step)
    requires Inv(c, s) && Enabled(c, s, step)
    requires step.Join? || step.Store? || step.Sync? || step.Reenable? || step.StartRound?
    ensures Inv(c, Next(c, s, step))
  {
    match step
    case Join(n, via, contents) => JoinInv(c, s, n, via, contents);
    case Store(n, p, off, val) => StoreInv(c, s, n, p, off, val);
    case Sync(n) => SyncInv(c, s, n);
    case Reenable(n, p) => ReenableInv(c, s, n, p);
    case StartRound(n, p) => StartRoundInv(c, s, n, p);
    case _ =>
  }

  lemma RoundStepInv(c: Config, s: State, step: Step)
    requires Inv(c, s) && Enabled(c, s, step)
    requires !step.Join? && !step.Store? && !step.Sync? && !step.Reenable? && !step.StartRound?
    ensures Inv(c, Next(c, s, step))
  {
    match step
    case AnswerEmpty(r, i) => AnswerEmptyInv(c, s, r, i);
    case FlipWrite(r, i) => FlipWriteInv(c, s, r, i);
    case SnapshotWrite(r, i) => SnapshotWriteInv(c, s, r, i);
    case BeginRead(r, i) => BeginReadInv(c, s, r, i);
    case SnapshotRead(r, i) => SnapshotReadInv(c, s, r, i);
    case Receive(r, i) => ReceiveInv(c, s, r, i);
    case Install(r) => InstallInv(c, s, r);
    case FinishWrite(r) => FinishWriteInv(c, s, r);
    case FinishRead(r) => FinishReadInv(c, s, r);
    case FailRound(r) => FailRoundInv(c, s, r);
    case _ =>
  }

  lemma InitInv(c: Config, master: NodeId)
    requires ValidConfig(c)
    ensures Inv(c, InitState(c, master))
  {
    var s := InitState(c, master);
    forall p | 0 <= p < c.pages ensures PageInv(c, s, p) {
      var st := PageOf(c, s, p);
      assert P.OwnedAt(st, P.AtOwner(master));
    }
  }

  /** Every state of every run, of any number of nodes in any interleaving, satisfies the invariant. */
  lemma {:induction false} RunInv(c: Config, s: State, steps: seq<Step>)
    requires Inv(c, s) && ValidRun(c, s, steps)
    ensures Inv(c, Run(c, s, steps))
    decreases |steps|
  {
    if steps != [] {
      StepInv(c, s, steps[0]);
      RunInv(c, Next(c, s, steps[0]), steps[1..]);
    }
  }
}
