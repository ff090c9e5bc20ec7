/**
 The ownership protocol as seen from one page: what each node's page state, page-table entry and
 copy are, and how far the rounds about this page have come. `Cluster` runs one such machine for
 every page. `log`, `version` and `synced` record history and steer no step.
 */
module PageProtocol {
  import opened Prelude
  import opened Protection
  import opened PageNode
  import Membership

  type NodeId = Membership.NodeId

  /** One write to the page; `after` is what the page held right after it. */
  datatype WriteRecord = WriteRecord(writer: NodeId, off: nat, val: Word, after: seq<Word>)

  datatype Kind = ReadRound | WriteRound

  /** How far the request to one peer has come. */
  datatype Status =
    | Asked                             // sent, not looked at yet
    | Flipped                           // the peer has given up ownership but not copied the page
    | Reading                           // the peer holds its mutex and waits for the page copy
    | InFlight(reply: Option<Copy>)     // answered; no page means the peer was not the owner
    | Done

  datatype Round = Round(kind: Kind, page: nat, peers: seq<NodeId>, status: seq<Status>,
                         data: Option<Copy>, installed: bool)

  /** One node's share: `synced` is how many writes the page had at the node's last sync. */
  datatype Cell = Cell(info: Prot, hw: Hw, copy: Copy, synced: nat)

  datatype PageState = PageState(cells: map<NodeId, Cell>, rounds: map<NodeId, Round>, log: seq<WriteRecord>)

  /** What the page held after its first `k` writes. */
  function Contents(initial: seq<Word>, log: seq<WriteRecord>, k: nat): seq<Word>
    requires k <= |log|
  {
    if k == 0 then initial else log[k - 1].after
  }

  /** Each write changes one word of what the page held before it. */
  ghost predicate Chain(initial: seq<Word>, log: seq<WriteRecord>) {
    forall k :: 0 <= k < |log| ==> Link(initial, log, k)
  }

  ghost predicate Link(initial: seq<Word>, log: seq<WriteRecord>, k: nat)
    requires k < |log|
  {
    var before := Contents(initial, log, k);
    |before| == |initial| && log[k].off < |before| && log[k].after == before[log[k].off := log[k].val]
  }

  // ----- where the ownership of the page is -----

  datatype Place =
    | AtOwner(n: NodeId)                // a node whose page state is write
    | AtFlipped(r: NodeId, i: nat)      // given up by a peer that has not copied the page yet
    | AtReply(r: NodeId, i: nat)        // in a reply that carries the page
    | AtData(r: NodeId)                 // in the data slot of a round
    | AtInstalled(r: NodeId)            // in the requester's memory, page state not updated yet

  ghost predicate WriteRoundAt(st: PageState, r: NodeId) {
    r in st.rounds && st.rounds[r].kind.WriteRound?
  }

  ghost predicate Holds(st: PageState, l: Place) {
    match l
    case AtOwner(n) => n in st.cells && Ownership(st.cells[n].info)
    case AtFlipped(r, i) => WriteRoundAt(st, r) && i < |st.rounds[r].status| && st.rounds[r].status[i].Flipped?
    case AtReply(r, i) => WriteRoundAt(st, r) && i < |st.rounds[r].status|
                          && st.rounds[r].status[i].InFlight? && st.rounds[r].status[i].reply.Some?
    case AtData(r) => WriteRoundAt(st, r) && st.rounds[r].data.Some? && !st.rounds[r].installed
    case AtInstalled(r) => WriteRoundAt(st, r) && st.rounds[r].installed
  }

  /** The ownership is at `l` and nowhere else. */
  ghost predicate OnlyAt(st: PageState, l: Place) {
    Holds(st, l) && forall l' :: Holds(st, l') ==> l' == l
  }

  /** `copy` is the copy of the page that travels with its ownership. */
  ghost predicate CopyAt(st: PageState, l: Place, copy: Copy) {
    match l
    case AtOwner(n) => n in st.cells && copy == st.cells[n].copy
    case AtFlipped(r, i) => r in st.rounds && i < |st.rounds[r].peers| && st.rounds[r].peers[i] in st.cells
                            && copy == st.cells[st.rounds[r].peers[i]].copy
    case AtReply(r, i) => r in st.rounds && i < |st.rounds[r].status| && st.rounds[r].status[i] == InFlight(Some(copy))
    case AtData(r) => r in st.rounds && st.rounds[r].data == Some(copy)
    case AtInstalled(r) => r in st.cells && copy == st.cells[r].copy
  }

  /** The node whose memory holds that copy, if any. */
  ghost predicate AtNode(st: PageState, l: Place, n: NodeId) {
    match l
    case AtOwner(m) => m == n
    case AtFlipped(r, i) => r in st.rounds && i < |st.rounds[r].peers| && st.rounds[r].peers[i] == n
    case AtInstalled(r) => r == n
    case _ => false
  }

  ghost predicate ReadInstalled(st: PageState, n: NodeId) {
    n in st.rounds && st.rounds[n].kind.ReadRound? && st.rounds[n].installed
  }

  // ----- the invariant -----

  /** `copy` is what the page held after its first `copy.version` writes. */
  ghost predicate Faithful(initial: seq<Word>, log: seq<WriteRecord>, copy: Copy) {
    copy.version <= |log| && copy.words == Contents(initial, log, copy.version)
  }

  ghost predicate AllDone(rd: Round) {
    forall i :: 0 <= i < |rd.status| ==> rd.status[i].Done?
  }

  /** The copy at `l` has every write, and only the node that holds it can be written. */
  ghost predicate Latest(st: PageState, l: Place) {
    && (forall copy :: CopyAt(st, l, copy) ==> copy.version == |st.log|)
    && (forall n :: n in st.cells && st.cells[n].hw.ReadWrite? ==> AtNode(st, l, n) || ReadInstalled(st, n))
  }

  ghost predicate CellInv(initial: seq<Word>, st: PageState, n: NodeId)
    requires n in st.cells
  {
    var cell := st.cells[n];
    && !cell.info.Owned?
    && |cell.copy.words| == |initial|
    && (cell.info.Invalid? && !ReadInstalled(st, n) ==> cell.hw.NoAccess? && cell.copy.version == 0)
    && (!cell.info.Invalid? || !cell.hw.NoAccess? ==> Faithful(initial, st.log, cell.copy))
    && (!cell.hw.NoAccess? ==> cell.synced <= cell.copy.version)
    && cell.synced <= |st.log|
    && (forall k :: 0 <= k < |st.log| && st.log[k].writer == n ==> k < cell.copy.version)
  }

  ghost predicate RoundInv(initial: seq<Word>, st: PageState, r: NodeId)
    requires r in st.rounds
  {
    var rd := st.rounds[r];
    && r in st.cells && |rd.peers| == |rd.status|
    && (forall i :: 0 <= i < |rd.peers| ==> rd.peers[i] in st.cells)
    && st.cells[r].info == (if rd.kind.WriteRound? then Read else Invalid)
    && (forall i :: 0 <= i < |rd.status| ==> StatusInv(initial, st, rd, st.cells[r].synced, rd.peers[i], rd.status[i]))
    && (rd.data.Some? ==> Carried(initial, st, st.cells[r].synced, rd.data.value))
    && (rd.installed ==> AllDone(rd) && rd.data.Some? && st.cells[r].copy == rd.data.value && st.cells[r].hw.ReadWrite?)
  }

  /** A page on its way to a requester is faithful, and fresh for the requester. */
  ghost predicate Carried(initial: seq<Word>, st: PageState, synced: nat, copy: Copy) {
    Faithful(initial, st.log, copy) && synced <= copy.version
  }

  ghost predicate StatusInv(initial: seq<Word>, st: PageState, rd: Round, synced: nat, q: NodeId, status: Status) {
    match status
    case Flipped => rd.kind.WriteRound? && q in st.cells && !st.cells[q].info.Invalid?
    case Reading => rd.kind.ReadRound? && q in st.cells && Ownership(st.cells[q].info)
    case InFlight(reply) => reply.Some? ==> Carried(initial, st, synced, reply.value)
    case _ => true
  }

  ghost predicate OwnedAt(st: PageState, l: Place) {
    OnlyAt(st, l) && Latest(st, l)
  }

  ghost predicate Owned(st: PageState) {
    exists l :: OwnedAt(st, l)
  }

  ghost predicate CellsInv(initial: seq<Word>, st: PageState) {
    forall n :: n in st.cells ==> CellInv(initial, st, n)
  }

  ghost predicate RoundsInv(initial: seq<Word>, st: PageState) {
    forall r :: r in st.rounds ==> RoundInv(initial, st, r)
  }

  ghost predicate LogInv(initial: seq<Word>, st: PageState) {
    Chain(initial, st.log) && forall k :: 0 <= k < |st.log| ==> st.log[k].writer in st.cells
  }

  ghost predicate Inv(initial: seq<Word>, st: PageState) {
    Owned(st) && CellsInv(initial, st) && RoundsInv(initial, st) && LogInv(initial, st)
  }

  // ----- the steps -----

  function SetCell(st: PageState, n: NodeId, cell: Cell): PageState {
    st.(cells := st.cells[n := cell])
  }

  function SetStatus(st: PageState, r: NodeId, i: nat, status: Status): PageState
    requires r in st.rounds && i < |st.rounds[r].status|
  {
    st.(rounds := st.rounds[r := st.rounds[r].(status := st.rounds[r].status[i := status])])
  }

  /** Request `i` of round `r` has the given kind and status, and asks a known node. */
  ghost predicate Pending(st: PageState, r: NodeId, i: nat, kind: Kind, status: Status) {
    && r in st.rounds && i < |st.rounds[r].status| && i < |st.rounds[r].peers|
    && st.rounds[r].kind == kind && st.rounds[r].status[i] == status
    && st.rounds[r].peers[i] in st.cells
  }

  /** No read answer for this page is in progress at `q`. */
  ghost predicate NotReading(st: PageState, q: NodeId) {
    forall r, i :: (r in st.rounds && 0 <= i < |st.rounds[r].status| && i < |st.rounds[r].peers|
                    && st.rounds[r].peers[i] == q) ==> !st.rounds[r].status[i].Reading?
  }

  ghost predicate CanStore(st: PageState, n: NodeId, off: nat) {
    n in st.cells && n !in st.rounds && st.cells[n].hw.ReadWrite? && off < |st.cells[n].copy.words|
  }

  function AfterStore(st: PageState, n: NodeId, off: nat, val: Word): PageState
    requires n in st.cells && off < |st.cells[n].copy.words|
  {
    var cell := st.cells[n];
    var words := cell.copy.words[off := val];
    SetCell(st, n, cell.(copy := Copy(|st.log| + 1, words))).(log := st.log + [WriteRecord(n, off, val, words)])
  }

  ghost predicate CanSync(st: PageState, n: NodeId) {
    n in st.cells && n !in st.rounds
  }

  function AfterSync(st: PageState, n: NodeId): PageState
    requires n in st.cells
  {
    SetCell(st, n, st.cells[n].(hw := NoAccess, synced := |st.log|))
  }

  ghost predicate CanReenable(st: PageState, n: NodeId) {
    n in st.cells && n !in st.rounds && Ownership(st.cells[n].info)
  }

  function AfterReenable(st: PageState, n: NodeId): PageState
    requires n in st.cells
  {
    SetCell(st, n, st.cells[n].(info := Write, hw := ReadWrite))
  }

  ghost predicate CanStart(st: PageState, n: NodeId, page: nat, peers: seq<NodeId>) {
    && n in st.cells && n !in st.rounds && !Ownership(st.cells[n].info)
    && (forall i :: 0 <= i < |peers| ==> peers[i] in st.cells)
  }

  /** The kind of round is chosen by the page state: a readable page is asked for as owner. */
  function NewRound(info: Prot, page: nat, peers: seq<NodeId>): Round {
    Round(if FaultKind(info).AskedWrite? then WriteRound else ReadRound,
          page, peers, seq(|peers|, _ => Asked), None, false)
  }

  function AfterStart(st: PageState, n: NodeId, page: nat, peers: seq<NodeId>): PageState
    requires n in st.cells
  {
    st.(rounds := st.rounds[n := NewRound(st.cells[n].info, page, peers)])
  }

  ghost predicate CanAnswerEmpty(st: PageState, r: NodeId, i: nat) {
    r in st.rounds && i < |st.rounds[r].status| && st.rounds[r].status[i].Asked?
  }

  ghost predicate CanFlip(st: PageState, r: NodeId, i: nat) {
    && Pending(st, r, i, WriteRound, Asked)
    && Ownership(st.cells[st.rounds[r].peers[i]].info) && NotReading(st, st.rounds[r].peers[i])
  }

  function AfterFlip(st: PageState, r: NodeId, i: nat): PageState
    requires r in st.rounds && i < |st.rounds[r].status| && i < |st.rounds[r].peers|
             && st.rounds[r].peers[i] in st.cells
  {
    var q := st.rounds[r].peers[i];
    SetCell(SetStatus(st, r, i, Flipped), q, st.cells[q].(info := Read))
  }

  function AfterSnapshotWrite(st: PageState, r: NodeId, i: nat): PageState
    requires r in st.rounds && i < |st.rounds[r].status| && i < |st.rounds[r].peers|
             && st.rounds[r].peers[i] in st.cells
  {
    var q := st.rounds[r].peers[i];
    SetCell(SetStatus(st, r, i, InFlight(Some(st.cells[q].copy))), q, st.cells[q].(hw := ReadOnly))
  }

  ghost predicate CanBeginRead(st: PageState, r: NodeId, i: nat) {
    Pending(st, r, i, ReadRound, Asked) && Ownership(st.cells[st.rounds[r].peers[i]].info)
  }

  function AfterSnapshotRead(st: PageState, r: NodeId, i: nat): PageState
    requires r in st.rounds && i < |st.rounds[r].status| && i < |st.rounds[r].peers|
             && st.rounds[r].peers[i] in st.cells
  {
    var q := st.rounds[r].peers[i];
    SetCell(SetStatus(st, r, i, InFlight(Some(st.cells[q].copy))), q,
            st.cells[q].(hw := if Ownership(st.cells[q].info) then ReadWrite else ReadOnly))
  }

  ghost predicate CanReceive(st: PageState, r: NodeId, i: nat) {
    r in st.rounds && i < |st.rounds[r].status| && st.rounds[r].status[i].InFlight?
  }

  /** A full page replaces what the data slot holds. */
  function Received(rd: Round, i: nat): Round
    requires i < |rd.status| && rd.status[i].InFlight?
  {
    rd.(status := rd.status[i := Done], data := if rd.status[i].reply.Some? then rd.status[i].reply else rd.data)
  }

  function AfterReceive(st: PageState, r: NodeId, i: nat): PageState
    requires r in st.rounds && i < |st.rounds[r].status| && st.rounds[r].status[i].InFlight?
  {
    st.(rounds := st.rounds[r := Received(st.rounds[r], i)])
  }

  ghost predicate CanInstall(st: PageState, r: NodeId) {
    r in st.rounds && AllDone(st.rounds[r]) && st.rounds[r].data.Some? && !st.rounds[r].installed
  }

  function AfterInstall(st: PageState, r: NodeId): PageState
    requires r in st.rounds && r in st.cells && st.rounds[r].data.Some?
  {
    SetCell(st, r, st.cells[r].(hw := ReadWrite, copy := st.rounds[r].data.value))
      .(rounds := st.rounds[r := st.rounds[r].(installed := true)])
  }

  ghost predicate CanFinish(st: PageState, r: NodeId, kind: Kind) {
    r in st.rounds && st.rounds[r].installed && st.rounds[r].kind == kind
  }

  function AfterFinishWrite(st: PageState, r: NodeId): PageState
    requires r in st.cells
  {
    SetCell(st, r, st.cells[r].(info := Write)).(rounds := st.rounds - {r})
  }

  function AfterFinishRead(st: PageState, r: NodeId): PageState
    requires r in st.cells
  {
    SetCell(st, r, st.cells[r].(info := Read, hw := ReadOnly)).(rounds := st.rounds - {r})
  }

  ghost predicate CanFail(st: PageState, r: NodeId) {
    r in st.rounds && AllDone(st.rounds[r]) && st.rounds[r].data.None?
  }

  function AfterFail(st: PageState, r: NodeId): PageState {
    st.(rounds := st.rounds - {r})
  }

  function AfterJoin(st: PageState, n: NodeId, copy: Copy): PageState {
    SetCell(st, n, Cell(Invalid, NoAccess, copy, 0))
  }

  datatype PageStep =
    | Join(n: NodeId, copy: Copy)
    | Store(n: NodeId, off: nat, val: Word)
    | Sync(n: NodeId)
    | Reenable(n: NodeId)
    | Start(n: NodeId, page: nat, peers: seq<NodeId>)
    | AnswerEmpty(r: NodeId, i: nat)
    | Flip(r: NodeId, i: nat)
    | SnapshotWrite(r: NodeId, i: nat)
    | BeginRead(r: NodeId, i: nat)
    | SnapshotRead(r: NodeId, i: nat)
    | Receive(r: NodeId, i: nat)
    | Install(r: NodeId)
    | FinishWrite(r: NodeId)
    | FinishRead(r: NodeId)
    | Fail(r: NodeId)

  ghost predicate Enabled(st: PageState, step: PageStep) {
    match step
    case Join(n, copy) => n !in st.cells && copy.version == 0
    case Store(n, off, _) => CanStore(st, n, off)
    case Sync(n) => CanSync(st, n)
    case Reenable(n) => CanReenable(st, n)
    case Start(n, page, peers) => CanStart(st, n, page, peers)
    case AnswerEmpty(r, i) => CanAnswerEmpty(st, r, i)
    case Flip(r, i) => CanFlip(st, r, i)
    case SnapshotWrite(r, i) => Pending(st, r, i, WriteRound, Flipped)
    case BeginRead(r, i) => CanBeginRead(st, r, i)
    case SnapshotRead(r, i) => Pending(st, r, i, ReadRound, Reading)
    case Receive(r, i) => CanReceive(st, r, i)
    case Install(r) => r in st.cells && CanInstall(st, r)
    case FinishWrite(r) => r in st.cells && CanFinish(st, r, WriteRound)
    case FinishRead(r) => r in st.cells && CanFinish(st, r, ReadRound)
    case Fail(r) => CanFail(st, r)
  }

  ghost function Next(st: PageState, step: PageStep): PageState
    requires Enabled(st, step)
  {
    match step
    case Join(n, copy) => AfterJoin(st, n, copy)
    case Store(n, off, val) => AfterStore(st, n, off, val)
    case Sync(n) => AfterSync(st, n)
    case Reenable(n) => AfterReenable(st, n)
    case Start(n, page, peers) => AfterStart(st, n, page, peers)
    case AnswerEmpty(r, i) => SetStatus(st, r, i, InFlight(None))
    case Flip(r, i) => AfterFlip(st, r, i)
    case SnapshotWrite(r, i) => AfterSnapshotWrite(st, r, i)
    case BeginRead(r, i) => SetStatus(st, r, i, Reading)
    case SnapshotRead(r, i) => AfterSnapshotRead(st, r, i)
    case Receive(r, i) => AfterReceive(st, r, i)
    case Install(r) => AfterInstall(st, r)
    case FinishWrite(r) => AfterFinishWrite(st, r)
    case FinishRead(r) => AfterFinishRead(st, r)
    case Fail(r) => AfterFail(st, r)
  }

  /** The ownership goes from `l` to `l2` when nothing else comes to hold it. */
  lemma MoveTo(st: PageState, st': PageState, l: Place, l2: Place)
    requires OnlyAt(st, l) && Holds(st', l2) && (l2 != l ==> !Holds(st', l))
    requires forall l' :: Holds(st', l') && l' != l2 ==> Holds(st, l')
    ensures OnlyAt(st', l2)
  {
    forall l' | Holds(st', l') ensures l' == l2 {
      if Holds(st, l') {}
    }
  }

  // ----- where each step takes the ownership -----

  lemma JoinPlace(initial: seq<Word>, st: PageState, n: NodeId, copy: Copy, l: Place)
    requires OwnedAt(st, l) && RoundsInv(initial, st)
    requires n !in st.cells && |copy.words| == |initial| && copy.version == 0
    ensures OwnedAt(AfterJoin(st, n, copy), l)
  {
    MoveTo(st, AfterJoin(st, n, copy), l, l);
  }

  lemma StorePlace(initial: seq<Word>, st: PageState, n: NodeId, off: nat, val: Word, l: Place)
    requires OwnedAt(st, l) && CanStore(st, n, off)
    ensures OwnedAt(AfterStore(st, n, off, val), l)
  {
    MoveTo(st, AfterStore(st, n, off, val), l, l);
  }

  lemma SyncPlace(initial: seq<Word>, st: PageState, n: NodeId, l: Place)
    requires OwnedAt(st, l) && CanSync(st, n)
    ensures OwnedAt(AfterSync(st, n), l)
  {
    MoveTo(st, AfterSync(st, n), l, l);
  }

  lemma ReenablePlace(initial: seq<Word>, st: PageState, n: NodeId, l: Place)
    requires OwnedAt(st, l) && CanReenable(st, n)
    ensures OwnedAt(AfterReenable(st, n), l)
  {
    assert Holds(st, AtOwner(n));
    MoveTo(st, AfterReenable(st, n), l, l);
  }

  lemma StartPlace(initial: seq<Word>, st: PageState, n: NodeId, page: nat, peers: seq<NodeId>, l: Place)
    requires OwnedAt(st, l) && CanStart(st, n, page, peers)
    ensures OwnedAt(AfterStart(st, n, page, peers), l)
  {
    MoveTo(st, AfterStart(st, n, page, peers), l, l);
  }

  lemma AnswerEmptyPlace(initial: seq<Word>, st: PageState, r: NodeId, i: nat, l: Place)
    requires OwnedAt(st, l) && CanAnswerEmpty(st, r, i)
    ensures OwnedAt(SetStatus(st, r, i, InFlight(None)), l)
  {
    MoveTo(st, SetStatus(st, r, i, InFlight(None)), l, l);
  }

  lemma FlipPlace(initial: seq<Word>, st: PageState, r: NodeId, i: nat, l: Place)
    requires OwnedAt(st, l) && CanFlip(st, r, i)
    ensures OwnedAt(AfterFlip(st, r, i), AtFlipped(r, i))
  {
    assert Holds(st, AtOwner(st.rounds[r].peers[i]));
    MoveTo(st, AfterFlip(st, r, i), l, AtFlipped(r, i));
  }

  lemma SnapshotWritePlace(initial: seq<Word>, st: PageState, r: NodeId, i: nat, l: Place)
    requires OwnedAt(st, l) && Pending(st, r, i, WriteRound, Flipped)
    ensures OwnedAt(AfterSnapshotWrite(st, r, i), AtReply(r, i))
  {
    assert Holds(st, AtFlipped(r, i));
    MoveTo(st, AfterSnapshotWrite(st, r, i), l, AtReply(r, i));
  }

  lemma BeginReadPlace(initial: seq<Word>, st: PageState, r: NodeId, i: nat, l: Place)
    requires OwnedAt(st, l) && CanBeginRead(st, r, i)
    ensures OwnedAt(SetStatus(st, r, i, Reading), l)
  {
    MoveTo(st, SetStatus(st, r, i, Reading), l, l);
  }

  lemma SnapshotReadPlace(initial: seq<Word>, st: PageState, r: NodeId, i: nat, l: Place)
    requires OwnedAt(st, l) && Pending(st, r, i, ReadRound, Reading)
    requires RoundsInv(initial, st)
    ensures OwnedAt(AfterSnapshotRead(st, r, i), l)
  {
    assert Holds(st, AtOwner(st.rounds[r].peers[i]));
    MoveTo(st, AfterSnapshotRead(st, r, i), l, l);
  }

  lemma ReceivePlace(initial: seq<Word>, st: PageState, r: NodeId, i: nat, l: Place)
    requires OwnedAt(st, l) && CanReceive(st, r, i)
    requires !st.rounds[r].installed
    ensures OwnedAt(AfterReceive(st, r, i),
                    if WriteRoundAt(st, r) && st.rounds[r].status[i].reply.Some? then AtData(r) else l)
  {
    assert WriteRoundAt(st, r) && st.rounds[r].status[i].reply.Some? ==> Holds(st, AtReply(r, i));
    MoveTo(st, AfterReceive(st, r, i), l,
           if WriteRoundAt(st, r) && st.rounds[r].status[i].reply.Some? then AtData(r) else l);
  }

  lemma InstallPlace(initial: seq<Word>, st: PageState, r: NodeId, l: Place)
    requires OwnedAt(st, l) && r in st.cells && CanInstall(st, r)
    requires RoundsInv(initial, st)
    ensures OwnedAt(AfterInstall(st, r), if WriteRoundAt(st, r) then AtInstalled(r) else l)
  {
    assert WriteRoundAt(st, r) ==> Holds(st, AtData(r));
    MoveTo(st, AfterInstall(st, r), l, if WriteRoundAt(st, r) then AtInstalled(r) else l);
  }

  lemma FinishWritePlace(initial: seq<Word>, st: PageState, r: NodeId, l: Place)
    requires OwnedAt(st, l) && r in st.cells && CanFinish(st, r, WriteRound)
    ensures OwnedAt(AfterFinishWrite(st, r), AtOwner(r))
  {
    assert Holds(st, AtInstalled(r));
    MoveTo(st, AfterFinishWrite(st, r), l, AtOwner(r));
  }

  lemma FinishReadPlace(initial: seq<Word>, st: PageState, r: NodeId, l: Place)
    requires OwnedAt(st, l) && r in st.cells && CanFinish(st, r, ReadRound)
    requires RoundInv(initial, st, r)
    ensures OwnedAt(AfterFinishRead(st, r), l)
  {
    MoveTo(st, AfterFinishRead(st, r), l, l);
  }

  lemma FailPlace(initial: seq<Word>, st: PageState, r: NodeId, l: Place)
    requires OwnedAt(st, l) && CanFail(st, r)
    requires !st.rounds[r].installed
    ensures OwnedAt(AfterFail(st, r), l)
  {
    MoveTo(st, AfterFail(st, r), l, l);
  }

  // ----- each step keeps the cells -----

  lemma JoinCells(initial: seq<Word>, st: PageState, n: NodeId, copy: Copy)
    requires CellsInv(initial, st) && LogInv(initial, st) && RoundsInv(initial, st)
    requires n !in st.cells && |copy.words| == |initial| && copy.version == 0
    ensures CellsInv(initial, AfterJoin(st, n, copy))
  {
  }

  lemma StoreCells(initial: seq<Word>, st: PageState, n: NodeId, off: nat, val: Word, l: Place)
    requires OwnedAt(st, l) && CellsInv(initial, st)
    requires CanStore(st, n, off)
    ensures CellsInv(initial, AfterStore(st, n, off, val))
  {
  }

  lemma SyncCells(initial: seq<Word>, st: PageState, n: NodeId)
    requires CellsInv(initial, st)
    requires CanSync(st, n)
    ensures CellsInv(initial, AfterSync(st, n))
  {
  }

  lemma ReenableCells(initial: seq<Word>, st: PageState, n: NodeId, l: Place)
    requires OwnedAt(st, l) && CellsInv(initial, st)
    requires CanReenable(st, n)
    ensures CellsInv(initial, AfterReenable(st, n))
  {
    assert Holds(st, AtOwner(n));
  }

  lemma StartCells(initial: seq<Word>, st: PageState, n: NodeId, page: nat, peers: seq<NodeId>)
    requires CellsInv(initial, st)
    requires CanStart(st, n, page, peers)
    ensures CellsInv(initial, AfterStart(st, n, page, peers))
  {
  }

  lemma AnswerEmptyCells(initial: seq<Word>, st: PageState, r: NodeId, i: nat)
    requires CellsInv(initial, st)
    requires CanAnswerEmpty(st, r, i)
    ensures CellsInv(initial, SetStatus(st, r, i, InFlight(None)))
  {
  }

  lemma FlipCells(initial: seq<Word>, st: PageState, r: NodeId, i: nat)
    requires CellsInv(initial, st)
    requires CanFlip(st, r, i)
    ensures CellsInv(initial, AfterFlip(st, r, i))
  {
  }

  lemma SnapshotWriteCells(initial: seq<Word>, st: PageState, r: NodeId, i: nat, l: Place)
    requires OwnedAt(st, l) && CellsInv(initial, st) && RoundsInv(initial, st)
    requires Pending(st, r, i, WriteRound, Flipped)
    ensures CellsInv(initial, AfterSnapshotWrite(st, r, i))
  {
    assert Holds(st, AtFlipped(r, i));
  }

  lemma BeginReadCells(initial: seq<Word>, st: PageState, r: NodeId, i: nat)
    requires CellsInv(initial, st)
    requires CanBeginRead(st, r, i)
    ensures CellsInv(initial, SetStatus(st, r, i, Reading))
  {
  }

  lemma SnapshotReadCells(initial: seq<Word>, st: PageState, r: NodeId, i: nat, l: Place)
    requires OwnedAt(st, l) && CellsInv(initial, st) && RoundsInv(initial, st)
    requires Pending(st, r, i, ReadRound, Reading)
    ensures CellsInv(initial, AfterSnapshotRead(st, r, i))
  {
    assert Holds(st, AtOwner(st.rounds[r].peers[i]));
  }

  lemma ReceiveCells(initial: seq<Word>, st: PageState, r: NodeId, i: nat)
    requires CellsInv(initial, st)
    requires CanReceive(st, r, i)
    ensures CellsInv(initial, AfterReceive(st, r, i))
  {
    assert WriteRoundAt(st, r) && st.rounds[r].status[i].reply.Some? ==> Holds(st, AtReply(r, i));
  }

  lemma InstallCells(initial: seq<Word>, st: PageState, r: NodeId, l: Place)
    requires r in st.cells && CanInstall(st, r)
    requires OwnedAt(st, l) && CellsInv(initial, st) && LogInv(initial, st) && RoundInv(initial, st, r)
    ensures CellsInv(initial, AfterInstall(st, r))
  {
    var v := st.rounds[r].data.value.version;
    assert v > 0 ==> Link(initial, st.log, v - 1);
    assert WriteRoundAt(st, r) ==> Holds(st, AtData(r));
  }

  lemma FinishWriteCells(initial: seq<Word>, st: PageState, r: NodeId)
    requires r in st.cells && CanFinish(st, r, WriteRound)
    requires CellsInv(initial, st) && RoundInv(initial, st, r)
    ensures CellsInv(initial, AfterFinishWrite(st, r))
  {
  }

  lemma FinishReadCells(initial: seq<Word>, st: PageState, r: NodeId)
    requires r in st.cells && CanFinish(st, r, ReadRound)
    requires CellsInv(initial, st) && RoundInv(initial, st, r)
    ensures CellsInv(initial, AfterFinishRead(st, r))
  {
  }

  lemma FailCells(initial: seq<Word>, st: PageState, r: NodeId)
    requires CanFail(st, r)
    requires CellsInv(initial, st) && RoundInv(initial, st, r)
    ensures CellsInv(initial, AfterFail(st, r))
  {
  }

  // ----- each step keeps the rounds -----

  lemma JoinRounds(initial: seq<Word>, st: PageState, n: NodeId, copy: Copy)
    requires RoundsInv(initial, st)
    requires n !in st.cells && |copy.words| == |initial| && copy.version == 0
    ensures RoundsInv(initial, AfterJoin(st, n, copy))
  {
  }

  lemma StoreRounds(initial: seq<Word>, st: PageState, n: NodeId, off: nat, val: Word)
    requires RoundsInv(initial, st)
    requires CanStore(st, n, off)
    ensures RoundsInv(initial, AfterStore(st, n, off, val))
  {
  }

  lemma SyncRounds(initial: seq<Word>, st: PageState, n: NodeId)
    requires RoundsInv(initial, st)
    requires CanSync(st, n)
    ensures RoundsInv(initial, AfterSync(st, n))
  {
  }

  lemma ReenableRounds(initial: seq<Word>, st: PageState, n: NodeId)
    requires RoundsInv(initial, st)
    requires CanReenable(st, n)
    ensures RoundsInv(initial, AfterReenable(st, n))
  {
  }

  lemma StartRounds(initial: seq<Word>, st: PageState, n: NodeId, page: nat, peers: seq<NodeId>)
    requires RoundsInv(initial, st) && CellsInv(initial, st)
    requires CanStart(st, n, page, peers)
    ensures RoundsInv(initial, AfterStart(st, n, page, peers))
  {
  }

  lemma AnswerEmptyRounds(initial: seq<Word>, st: PageState, r: NodeId, i: nat)
    requires RoundsInv(initial, st)
    requires CanAnswerEmpty(st, r, i)
    ensures RoundsInv(initial, SetStatus(st, r, i, InFlight(None)))
  {
  }

  lemma FlipRounds(initial: seq<Word>, st: PageState, r: NodeId, i: nat)
    requires RoundsInv(initial, st)
    requires CanFlip(st, r, i)
    ensures RoundsInv(initial, AfterFlip(st, r, i))
  {
  }

  /** The copy taken for request `i` has every write, so it is fresh for the requester. */
  lemma SnapshotWriteCarried(initial: seq<Word>, st: PageState, r: NodeId, i: nat, l: Place)
    requires OwnedAt(st, l) && CellsInv(initial, st)
    requires Pending(st, r, i, WriteRound, Flipped) && RoundInv(initial, st, r)
    ensures Carried(initial, st, st.cells[r].synced, st.cells[st.rounds[r].peers[i]].copy)
  {
    assert Holds(st, AtFlipped(r, i));
    assert CellInv(initial, st, r) && CellInv(initial, st, st.rounds[r].peers[i]);
    assert StatusInv(initial, st, st.rounds[r], st.cells[r].synced, st.rounds[r].peers[i], st.rounds[r].status[i]);
  }

  lemma SnapshotWriteRounds(initial: seq<Word>, st: PageState, r: NodeId, i: nat)
    requires Pending(st, r, i, WriteRound, Flipped) && RoundsInv(initial, st)
    requires st.rounds[r].peers[i] in st.rounds ==> !st.rounds[st.rounds[r].peers[i]].installed
    requires Carried(initial, st, st.cells[r].synced, st.cells[st.rounds[r].peers[i]].copy)
    ensures RoundsInv(initial, AfterSnapshotWrite(st, r, i))
  {
  }

  lemma BeginReadRounds(initial: seq<Word>, st: PageState, r: NodeId, i: nat)
    requires RoundsInv(initial, st)
    requires CanBeginRead(st, r, i)
    ensures RoundsInv(initial, SetStatus(st, r, i, Reading))
  {
  }

  /** The copy taken for request `i` has every write, so it is fresh for the requester. */
  lemma SnapshotReadCarried(initial: seq<Word>, st: PageState, r: NodeId, i: nat, l: Place)
    requires OwnedAt(st, l) && CellsInv(initial, st)
    requires Pending(st, r, i, ReadRound, Reading) && RoundInv(initial, st, r)
    ensures Carried(initial, st, st.cells[r].synced, st.cells[st.rounds[r].peers[i]].copy)
  {
    assert Holds(st, AtOwner(st.rounds[r].peers[i]));
    assert CellInv(initial, st, r) && CellInv(initial, st, st.rounds[r].peers[i]);
    assert StatusInv(initial, st, st.rounds[r], st.cells[r].synced, st.rounds[r].peers[i], st.rounds[r].status[i]);
  }

  lemma SnapshotReadRounds(initial: seq<Word>, st: PageState, r: NodeId, i: nat)
    requires Pending(st, r, i, ReadRound, Reading) && RoundsInv(initial, st)
    requires Carried(initial, st, st.cells[r].synced, st.cells[st.rounds[r].peers[i]].copy)
    ensures RoundsInv(initial, AfterSnapshotRead(st, r, i))
  {
  }

  lemma ReceiveRounds(initial: seq<Word>, st: PageState, r: NodeId, i: nat)
    requires RoundsInv(initial, st)
    requires CanReceive(st, r, i)
    ensures RoundsInv(initial, AfterReceive(st, r, i))
  {
    assert WriteRoundAt(st, r) && st.rounds[r].status[i].reply.Some? ==> Holds(st, AtReply(r, i));
  }

  lemma InstallRounds(initial: seq<Word>, st: PageState, r: NodeId)
    requires RoundsInv(initial, st)
    requires r in st.cells && CanInstall(st, r)
    ensures RoundsInv(initial, AfterInstall(st, r))
  {
    assert WriteRoundAt(st, r) ==> Holds(st, AtData(r));
  }

  lemma FinishWriteRounds(initial: seq<Word>, st: PageState, r: NodeId)
    requires RoundsInv(initial, st)
    requires r in st.cells && CanFinish(st, r, WriteRound)
    ensures RoundsInv(initial, AfterFinishWrite(st, r))
  {
  }

  lemma FinishReadRounds(initial: seq<Word>, st: PageState, r: NodeId)
    requires RoundsInv(initial, st)
    requires r in st.cells && CanFinish(st, r, ReadRound)
    ensures RoundsInv(initial, AfterFinishRead(st, r))
  {
  }

  lemma FailRounds(initial: seq<Word>, st: PageState, r: NodeId)
    requires RoundsInv(initial, st)
    requires CanFail(st, r)
    ensures RoundsInv(initial, AfterFail(st, r))
  {
  }

  // ----- each step keeps the invariant -----

  /** Where the ownership is after a step, when it was at `l` before. */
  ghost function Moved(st: PageState, l: Place, step: PageStep): Place
    requires Enabled(st, step)
  {
    match step
    case Flip(r, i) => AtFlipped(r, i)
    case SnapshotWrite(r, i) => AtReply(r, i)
    case Receive(r, i) => if WriteRoundAt(st, r) && st.rounds[r].status[i].reply.Some? then AtData(r) else l
    case Install(r) => if WriteRoundAt(st, r) then AtInstalled(r) else l
    case FinishWrite(r) => AtOwner(r)
    case _ => l
  }

  lemma OwnershipMoves(initial: seq<Word>, st: PageState, step: PageStep, l: Place)
    requires Inv(initial, st) && Enabled(st, step) && OwnedAt(st, l)
    requires step.Join? ==> |step.copy.words| == |initial|
    ensures OwnedAt(Next(st, step), Moved(st, l, step))
  {
    match step
    case Join(n, copy) => JoinPlace(initial, st, n, copy, l);
    case Store(n, off, val) => StorePlace(initial, st, n, off, val, l);
    case Sync(n) => SyncPlace(initial, st, n, l);
    case Reenable(n) => ReenablePlace(initial, st, n, l);
    case Start(n, page, peers) => StartPlace(initial, st, n, page, peers, l);
    case AnswerEmpty(r, i) => AnswerEmptyPlace(initial, st, r, i, l);
    case Flip(r, i) => FlipPlace(initial, st, r, i, l);
    case SnapshotWrite(r, i) => SnapshotWritePlace(initial, st, r, i, l);
    case BeginRead(r, i) => BeginReadPlace(initial, st, r, i, l);
    case SnapshotRead(r, i) => SnapshotReadPlace(initial, st, r, i, l);
    case Receive(r, i) => assert RoundInv(initial, st, r); ReceivePlace(initial, st, r, i, l);
    case Install(r) => InstallPlace(initial, st, r, l);
    case FinishWrite(r) => FinishWritePlace(initial, st, r, l);
    case FinishRead(r) => FinishReadPlace(initial, st, r, l);
    case Fail(r) => assert RoundInv(initial, st, r); FailPlace(initial, st, r, l);
  }

  lemma CellsKept(initial: seq<Word>, st: PageState, step: PageStep, l: Place)
    requires Inv(initial, st) && Enabled(st, step) && OwnedAt(st, l)
    requires step.Join? ==> |step.copy.words| == |initial|
    ensures CellsInv(initial, Next(st, step))
  {
    match step
    case Join(n, copy) => JoinCells(initial, st, n, copy);
    case Store(n, off, val) => StoreCells(initial, st, n, off, val, l);
    case Sync(n) => SyncCells(initial, st, n);
    case Reenable(n) => ReenableCells(initial, st, n, l);
    case Start(n, page, peers) => StartCells(initial, st, n, page, peers);
    case AnswerEmpty(r, i) => AnswerEmptyCells(initial, st, r, i);
    case Flip(r, i) => FlipCells(initial, st, r, i);
    case SnapshotWrite(r, i) => SnapshotWriteCells(initial, st, r, i, l);
    case BeginRead(r, i) => BeginReadCells(initial, st, r, i);
    case SnapshotRead(r, i) => SnapshotReadCells(initial, st, r, i, l);
    case Receive(r, i) => ReceiveCells(initial, st, r, i);
    case Install(r) => InstallCells(initial, st, r, l);
    case FinishWrite(r) => FinishWriteCells(initial, st, r);
    case FinishRead(r) => FinishReadCells(initial, st, r);
    case Fail(r) => FailCells(initial, st, r);
  }

  lemma RoundsKept(initial: seq<Word>, st: PageState, step: PageStep, l: Place)
    requires Inv(initial, st) && Enabled(st, step) && OwnedAt(st, l)
    requires step.Join? ==> |step.copy.words| == |initial|
    ensures RoundsInv(initial, Next(st, step))
  {
    match step
    case Join(n, copy) => JoinRounds(initial, st, n, copy);
    case Store(n, off, val) => StoreRounds(initial, st, n, off, val);
    case Sync(n) => SyncRounds(initial, st, n);
    case Reenable(n) => ReenableRounds(initial, st, n);
    case Start(n, page, peers) => StartRounds(initial, st, n, page, peers);
    case AnswerEmpty(r, i) => AnswerEmptyRounds(initial, st, r, i);
    case Flip(r, i) => FlipRounds(initial, st, r, i);
    case SnapshotWrite(r, i) => SnapshotWriteRoundsKept(initial, st, r, i, l);
    case BeginRead(r, i) => BeginReadRounds(initial, st, r, i);
    case SnapshotRead(r, i) =>
      SnapshotReadCarried(initial, st, r, i, l);
      SnapshotReadRounds(initial, st, r, i);
    case Receive(r, i) => ReceiveRounds(initial, st, r, i);
    case Install(r) => InstallRounds(initial, st, r);
    case FinishWrite(r) => FinishWriteRounds(initial, st, r);
    case FinishRead(r) => FinishReadRounds(initial, st, r);
    case Fail(r) => FailRounds(initial, st, r);
  }

  lemma SnapshotWriteRoundsKept(initial: seq<Word>, st: PageState, r: NodeId, i: nat, l: Place)
    requires OwnedAt(st, l) && CellsInv(initial, st) && RoundsInv(initial, st)
    requires Pending(st, r, i, WriteRound, Flipped)
    ensures RoundsInv(initial, AfterSnapshotWrite(st, r, i))
  {
    var q := st.rounds[r].peers[i];
    assert RoundInv(initial, st, r);
    SnapshotWriteCarried(initial, st, r, i, l);
    assert Holds(st, AtFlipped(r, i));
    assert StatusInv(initial, st, st.rounds[r], st.cells[r].synced, q, st.rounds[r].status[i]);
    assert !Holds(st, AtInstalled(q));
    SnapshotWriteRounds(initial, st, r, i);
  }

  lemma StoreLog(initial: seq<Word>, st: PageState, st': PageState, n: NodeId, off: nat, val: Word)
    requires LogInv(initial, st) && n in st.cells && off < |st.cells[n].copy.words|
    requires |st.log| > 0 ==> Link(initial, st.log, |st.log| - 1)
    requires st.cells[n].copy.words == Contents(initial, st.log, |st.log|)
    requires st' == AfterStore(st, n, off, val)
    ensures LogInv(initial, st')
  {
    forall k | 0 <= k < |st'.log| ensures Link(initial, st'.log, k) {
      if k < |st.log| { assert Link(initial, st.log, k); }
    }
  }

  lemma LogKept(initial: seq<Word>, st: PageState, step: PageStep)
    requires CellsInv(initial, st) && LogInv(initial, st) && Enabled(st, step)
    requires step.Store? ==> |st.log| > 0 ==> Link(initial, st.log, |st.log| - 1)
    requires step.Store? ==> st.cells[step.n].copy.words == Contents(initial, st.log, |st.log|)
    ensures LogInv(initial, Next(st, step))
  {
    if step.Store? {
      StoreLog(initial, st, AfterStore(st, step.n, step.off, step.val), step.n, step.off, step.val);
    }
  }

  /** One step keeps the invariant. */
  lemma StepInv(initial: seq<Word>, st: PageState, step: PageStep)
    requires Inv(initial, st) && Enabled(st, step)
    requires step.Join? ==> |step.copy.words| == |initial|
    ensures Inv(initial, Next(st, step))
  {
    var l :| OwnedAt(st, l);
    OwnershipMoves(initial, st, step, l);
    assert OwnedAt(Next(st, step), Moved(st, l, step));
    CellsKept(initial, st, step, l);
    RoundsKept(initial, st, step, l);
    if step.Store? { StoreIsLatest(initial, st, step.n, step.off, l); }
    LogKept(initial, st, step);
  }

  /** A node that can write has the latest contents. */
  lemma StoreIsLatest(initial: seq<Word>, st: PageState, n: NodeId, off: nat, l: Place)
    requires OwnedAt(st, l) && CellsInv(initial, st) && CanStore(st, n, off)
    ensures CopyAt(st, l, st.cells[n].copy)
    ensures st.cells[n].copy == Copy(|st.log|, Contents(initial, st.log, |st.log|))
  {
    assert CellInv(initial, st, n);
    assert AtNode(st, l, n);
  }
}
