/**
 What a child's access comes to: it goes through or faults, and what each step of serving the fault does to
 pages, page tables and the round's data slot, in terms of those alone.
 */
module Faults {
  import opened Prelude
  import opened Protection
  import opened PageNode
  import opened Cluster
  import opened Coherence
  import opened Rounds
  import Membership
  import P = PageProtocol

  /** What node `n` has of page `p`: page state, access of the child, contents. */
  ghost predicate Has(s: State, n: NodeId, p: nat, info: Prot, hw: Hw, copy: Copy) {
    n in s.nodes && p < |s.nodes[n].info| && p < |s.nodes[n].hw| && p < |s.nodes[n].mem|
    && s.nodes[n].info[p] == info && s.nodes[n].hw[p] == hw && s.nodes[n].mem[p] == copy
  }

  ghost predicate SameBut(v: NodeView, v': NodeView, p: nat) {
    && |v'.info| == |v.info| && |v'.hw| == |v.hw| && |v'.mem| == |v.mem|
    && forall q :: q != p ==>
         && (0 <= q < |v.info| ==> v'.info[q] == v.info[q])
         && (0 <= q < |v.hw| ==> v'.hw[q] == v.hw[q])
         && (0 <= q < |v.mem| ==> v'.mem[q] == v.mem[q])
  }

  /** Whatever any node has of any page but `n` of `p` is the same. */
  ghost predicate OthersSame(s: State, s': State, n: NodeId, p: nat) {
    && n in s.nodes && n in s'.nodes && s'.nodes == s.nodes[n := s'.nodes[n]]
    && SameBut(s.nodes[n], s'.nodes[n], p)
  }

  // ----- the child -----

  /** In a reachable state the page state is one of three, and a node has all its pages. */
  lemma PageStates(c: Config, s: State, n: NodeId, p: nat)
    requires Reachable(c, s) && Shape(c, s) && n in s.nodes && p < c.pages
    ensures Sized(s.nodes[n], c.pages) && !s.nodes[n].info[p].Owned?
    ensures |s.nodes[n].mem[p].words| == |c.initial[p]|
  {
    ReachableInv(c, s);
    assert Sized(s.nodes[n], c.pages);
    assert PageInv(c, s, p);
    assert P.CellInv(c.initial[p], PageOf(c, s, p), n);
  }

  /** A child that is not in a fault can go on with every access: it stores or loads, or its fault is served
      in exactly one of the two ways. */
  lemma ChildGoesOn(c: Config, s: State, n: NodeId, p: nat, off: nat, val: Word)
    requires Reachable(c, s) && Shape(c, s) && Running(s, n) && p < c.pages && off < |c.initial[p]|
    ensures Sized(s.nodes[n], c.pages)
    ensures s.nodes[n].hw[p] == ReadWrite <==> Enabled(c, s, Store(n, p, off, val))
    ensures s.nodes[n].hw[p] != NoAccess <==> CanLoad(s, n, p)
    ensures s.nodes[n].hw[p] != ReadWrite && s.nodes[n].info[p] == Write <==> Enabled(c, s, Cluster.Reenable(n, p))
    ensures s.nodes[n].hw[p] != ReadWrite && s.nodes[n].info[p] != Write <==> Enabled(c, s, StartRound(n, p))
  {
    PageStates(c, s, n, p);
  }

  /** A store changes one word of one copy, which a load then returns, and is the page's newest write. */
  lemma StoreThenLoad(c: Config, s: State, n: NodeId, p: nat, off: nat, val: Word, s': State)
    requires Shape(c, s) && Enabled(c, s, Store(n, p, off, val)) && s' == Next(c, s, Store(n, p, off, val))
    ensures CanLoad(s', n, p) && off < |s'.nodes[n].mem[p].words| == |s.nodes[n].mem[p].words|
    ensures Load(s', n, p, off) == val
    ensures forall k :: 0 <= k < |s.nodes[n].mem[p].words| && k != off ==> Load(s', n, p, k) == Load(s, n, p, k)
    ensures |s'.log| == |s.log| && forall q :: 0 <= q < |s.log| && q != p ==> s'.log[q] == s.log[q]
    ensures |s'.log[p]| == |s.log[p]| + 1 && s'.log[p][..|s.log[p]|] == s.log[p]
    ensures var w := s'.log[p][|s.log[p]|]; w.writer == n && w.off == off && w.val == val
    ensures OthersSame(s, s', n, p)
  {
  }

  /** Any new node can join through any member, with regions of the right sizes; it has nothing of any page, and
      nobody's pages change. */
  lemma AnyoneJoins(c: Config, s: State, n: NodeId, via: NodeId, contents: seq<Copy>)
    requires Inv(c, s) && n !in s.nodes && via in s.nodes && |contents| == c.pages
    requires forall p :: 0 <= p < c.pages ==> |contents[p].words| == |c.initial[p]| && contents[p].version == 0
    ensures Enabled(c, s, Join(n, via, contents))
    ensures var s' := Next(c, s, Join(n, via, contents));
            && s'.nodes.Keys == s.nodes.Keys + {n} && s'.nodes == s.nodes[n := s'.nodes[n]] && Running(s', n)
            && forall p :: 0 <= p < c.pages ==> Has(s', n, p, Invalid, NoAccess, contents[p])
  {
    assert Membership.Lists(s.conn[via], s.conn.Keys - {via});
    assert Membership.CanJoin(s.conn, n, via);
    NewNode(c, s, n, via, contents, AfterJoin(c, s, n, via, contents));
  }

  lemma NewNode(c: Config, s: State, n: NodeId, via: NodeId, contents: seq<Copy>, s': State)
    requires s.rounds.Keys <= s.nodes.Keys && n !in s.nodes && |contents| == c.pages
    requires Membership.CanJoin(s.conn, n, via) && s' == AfterJoin(c, s, n, via, contents)
    ensures s'.nodes.Keys == s.nodes.Keys + {n} && s'.nodes == s.nodes[n := s'.nodes[n]] && Running(s', n)
    ensures forall p :: 0 <= p < c.pages ==> Has(s', n, p, Invalid, NoAccess, contents[p])
  {
  }

  /** An owner's fault gives it its full access back, to the contents it had. */
  lemma ReenableGives(c: Config, s: State, n: NodeId, p: nat, s': State)
    requires Shape(c, s) && Enabled(c, s, Cluster.Reenable(n, p)) && s' == Next(c, s, Cluster.Reenable(n, p))
    ensures p < |s.nodes[n].mem| && Has(s', n, p, Write, ReadWrite, s.nodes[n].mem[p])
    ensures Running(s', n) && OthersSame(s, s', n, p)
  {
  }

  // ----- a round -----

  /** The kind of a round is chosen by the page state, and every other node is asked once. */
  lemma RoundStarts(c: Config, s: State, n: NodeId, p: nat, s': State)
    requires Inv(c, s) && Enabled(c, s, StartRound(n, p)) && s' == Next(c, s, StartRound(n, p))
    ensures n in s'.rounds && s'.rounds[n].page == p && s'.rounds[n].data.None? && !s'.rounds[n].installed
    ensures s.nodes[n].info[p] == Read ==> s'.rounds[n].kind == P.WriteRound
    ensures s.nodes[n].info[p] == Invalid ==> s'.rounds[n].kind == P.ReadRound
    ensures Membership.Lists(s'.rounds[n].peers, s.nodes.Keys - {n})
    ensures forall i :: 0 <= i < |s'.rounds[n].status| ==> s'.rounds[n].status[i] == P.Asked
    ensures s'.nodes == s.nodes
  {
  }

  /** The owner that is asked for the page gives up the page state at once, and nothing else. */
  lemma GivesUp(c: Config, s: State, r: NodeId, i: nat, q: NodeId, p: nat, s': State)
    requires Shape(c, s) && Enabled(c, s, FlipWrite(r, i)) && s' == Next(c, s, FlipWrite(r, i))
    requires q == Peer(c, s, r, i) && p == s.rounds[r].page && Sized(s.nodes[q], c.pages)
    ensures p < c.pages && Ownership(s.nodes[q].info[p])
    ensures Has(s', q, p, Read, s.nodes[q].hw[p], s.nodes[q].mem[p]) && OthersSame(s, s', q, p)
  {
    assert RoundShape(c, s, s.rounds[r]);
  }

  /** Then its child loses the write access, and the contents of that moment are the answer. */
  lemma SendsPage(c: Config, s: State, r: NodeId, i: nat, q: NodeId, p: nat, s': State)
    requires Shape(c, s) && Enabled(c, s, SnapshotWrite(r, i)) && s' == Next(c, s, SnapshotWrite(r, i))
    requires q == Peer(c, s, r, i) && p == s.rounds[r].page && Sized(s.nodes[q], c.pages)
    ensures p < c.pages && Has(s', q, p, s.nodes[q].info[p], ReadOnly, s.nodes[q].mem[p]) && OthersSame(s, s', q, p)
    ensures r in s'.rounds && i < |s'.rounds[r].status|
    ensures s'.rounds[r].status[i] == P.InFlight(Some(s.nodes[q].mem[p]))
  {
    assert RoundShape(c, s, s.rounds[r]);
  }

  /** The owner that is asked to share the page sends the contents, and keeps page state and full access. */
  lemma SharesPage(c: Config, s: State, r: NodeId, i: nat, q: NodeId, p: nat, s': State)
    requires Inv(c, s) && Enabled(c, s, SnapshotRead(r, i)) && s' == Next(c, s, SnapshotRead(r, i))
    requires q == Peer(c, s, r, i) && p == s.rounds[r].page && Sized(s.nodes[q], c.pages)
    ensures p < c.pages && Has(s', q, p, Write, ReadWrite, s.nodes[q].mem[p]) && OthersSame(s, s', q, p)
    ensures r in s'.rounds && i < |s'.rounds[r].status|
    ensures s'.rounds[r].status[i] == P.InFlight(Some(s.nodes[q].mem[p]))
    ensures q in s.mu && q !in s'.mu
  {
    assert RoundShape(c, s, s.rounds[r]);
    ReadingOwner(c, s, r, i, q, p);
  }

  lemma ReadingOwner(c: Config, s: State, r: NodeId, i: nat, q: NodeId, p: nat)
    requires Inv(c, s) && Pending(s, r, i, P.ReadRound, P.Reading) && q == Peer(c, s, r, i) && p == s.rounds[r].page
    ensures p < c.pages && p < |s.nodes[q].info| && s.nodes[q].info[p] == Write && q in s.mu
  {
    assert RoundShape(c, s, s.rounds[r]);
    assert PageInv(c, s, p) && Sized(s.nodes[q], c.pages);
    var st := PageOf(c, s, p);
    assert P.RoundInv(c.initial[p], st, r);
    assert P.StatusInv(c.initial[p], st, s.rounds[r], st.cells[r].synced, q, s.rounds[r].status[i]);
    assert P.CellInv(c.initial[p], st, q);
  }

  // ----- the data slot -----

  /** A reply that carries a page puts that page in the slot, whatever was there; an empty one leaves it. */
  lemma ReplyReceived(c: Config, s: State, r: NodeId, i: nat, s': State)
    requires Shape(c, s) && Enabled(c, s, Receive(r, i)) && s' == Next(c, s, Receive(r, i))
    ensures s'.nodes == s.nodes && s'.rounds.Keys == s.rounds.Keys
    ensures s'.rounds[r].data == if s.rounds[r].status[i].reply.Some? then s.rounds[r].status[i].reply
                                 else s.rounds[r].data
    ensures i < |s'.rounds[r].status| && s'.rounds[r].status[i] == P.Done
  {
  }

  /** The last page that the round of `r` has received along a run, `start` if none. */
  ghost function LastReceived(c: Config, s: State, steps: seq<Step>, r: NodeId, start: Option<Copy>): Option<Copy>
    requires Shape(c, s) && ValidRun(c, s, steps)
    decreases |steps|
  {
    if steps == [] then start
    else LastReceived(c, Next(c, s, steps[0]), steps[1..], r, SlotAfter(s, steps[0], r, start))
  }

  ghost function SlotAfter(s: State, step: Step, r: NodeId, slot: Option<Copy>): Option<Copy> {
    if step.StartRound? && step.n == r then None
    else if step.Receive? && step.r == r && PageIn(s, r, step.i).Some? then PageIn(s, r, step.i)
    else slot
  }

  /** The page that reply `i` to `r` carries, if any. */
  ghost function PageIn(s: State, r: NodeId, i: nat): Option<Copy> {
    if r in s.rounds && i < |s.rounds[r].status| && s.rounds[r].status[i].InFlight? then s.rounds[r].status[i].reply
    else None
  }

  lemma SlotStep(c: Config, s: State, step: Step, s': State, r: NodeId, slot: Option<Copy>)
    requires Shape(c, s) && Enabled(c, s, step) && s' == Next(c, s, step) && r in s'.rounds
    requires r in s.rounds ==> slot == s.rounds[r].data
    ensures s'.rounds[r].data == SlotAfter(s, step, r, slot)
  {
    if Subject(step) == Some(r) {
      SlotOwnStep(c, s, step, s', r);
    } else if r in s.rounds {
      RoundUntouched(c, s, step, s', r);
      if step.StartRound? { assert step.n != r; }
    } else {
      RoundBegins(c, s, step, s', r);
    }
  }

  lemma SlotOwnStep(c: Config, s: State, step: Step, s': State, r: NodeId)
    requires Shape(c, s) && Enabled(c, s, step) && s' == Next(c, s, step) && r in s'.rounds && Subject(step) == Some(r)
    ensures r in s.rounds && s'.rounds[r].data == SlotAfter(s, step, r, s.rounds[r].data)
  {
    if step.Receive? {
      ReplyReceived(c, s, r, step.i, s');
    } else if RequestStep(step) {
      AnswerKeepsSlot(c, s, step, s');
    } else {
      EndKeepsSlot(c, s, step, s', r);
    }
  }

  lemma WriteAnswerKeepsSlot(c: Config, s: State, step: Step, s': State)
    requires Shape(c, s) && Enabled(c, s, step) && s' == Next(c, s, step)
    requires step.FlipWrite? || step.SnapshotWrite?
    ensures step.r in s.rounds && step.r in s'.rounds && s'.rounds[step.r].data == s.rounds[step.r].data
  {
  }

  lemma ReadAnswerKeepsSlot(c: Config, s: State, step: Step, s': State)
    requires Shape(c, s) && Enabled(c, s, step) && s' == Next(c, s, step)
    requires step.BeginRead? || step.SnapshotRead?
    ensures step.r in s.rounds && step.r in s'.rounds && s'.rounds[step.r].data == s.rounds[step.r].data
  {
  }

  lemma AnswerKeepsSlot(c: Config, s: State, step: Step, s': State)
    requires Shape(c, s) && Enabled(c, s, step) && s' == Next(c, s, step)
    requires RequestStep(step) && !step.Receive?
    ensures step.r in s.rounds && step.r in s'.rounds && s'.rounds[step.r].data == s.rounds[step.r].data
  {
    if step.FlipWrite? || step.SnapshotWrite? {
      WriteAnswerKeepsSlot(c, s, step, s');
    } else if step.BeginRead? || step.SnapshotRead? {
      ReadAnswerKeepsSlot(c, s, step, s');
    }
  }

  lemma EndKeepsSlot(c: Config, s: State, step: Step, s': State, r: NodeId)
    requires Shape(c, s) && Enabled(c, s, step) && s' == Next(c, s, step) && !RequestStep(step)
    requires r in s'.rounds && Subject(step) == Some(r)
    ensures r in s.rounds && s'.rounds[r].data == s.rounds[r].data
  {
  }

  lemma RoundBegins(c: Config, s: State, step: Step, s': State, r: NodeId)
    requires Shape(c, s) && Enabled(c, s, step) && s' == Next(c, s, step) && r in s'.rounds && r !in s.rounds
    ensures step.StartRound? && step.n == r && s'.rounds[r].data.None?
  {
    if RequestStep(step) { RequestEffect(c, s, step, s'); }
  }

  /** Over any run, the slot of a round holds the page it received last, and nothing if it received none. */
  lemma {:induction false} SlotIsLastReceived(c: Config, s: State, steps: seq<Step>, r: NodeId, slot: Option<Copy>)
    requires Inv(c, s) && ValidRun(c, s, steps) && r in Run(c, s, steps).rounds
    requires r in s.rounds ==> slot == s.rounds[r].data
    ensures Run(c, s, steps).rounds[r].data == LastReceived(c, s, steps, r, slot)
    decreases |steps|
  {
    if steps != [] {
      var s' := Next(c, s, steps[0]);
      StepInv(c, s, steps[0]);
      if r in s'.rounds { SlotStep(c, s, steps[0], s', r, slot); }
      SlotIsLastReceived(c, s', steps[1..], r, SlotAfter(s, steps[0], r, slot));
    }
  }

  // ----- the end of a round -----

  /** The page in the slot becomes the node's copy, with full access for the tracer's own use. */
  lemma InstallGives(c: Config, s: State, r: NodeId, p: nat, s': State)
    requires Shape(c, s) && Enabled(c, s, Install(r)) && s' == Next(c, s, Install(r)) && p == s.rounds[r].page
    requires r in s.nodes && Sized(s.nodes[r], c.pages)
    ensures p < c.pages && Has(s', r, p, s.nodes[r].info[p], ReadWrite, s.rounds[r].data.value)
    ensures OthersSame(s, s', r, p)
  {
    assert RoundShape(c, s, s.rounds[r]);
  }

  /** A write round ends with the child running, able to store, and its node the owner. */
  lemma WriteRoundGives(c: Config, s: State, r: NodeId, p: nat, s': State)
    requires Inv(c, s) && Enabled(c, s, FinishWrite(r)) && s' == Next(c, s, FinishWrite(r)) && p == s.rounds[r].page
    requires r in s.nodes && Sized(s.nodes[r], c.pages)
    ensures p < c.pages && s.rounds[r].data.Some? && Running(s', r)
    ensures Has(s', r, p, Write, ReadWrite, s.rounds[r].data.value) && OthersSame(s, s', r, p)
  {
    InstalledCell(c, s, r, p);
  }

  /** A read round ends with the child running and able to load, but not to store. */
  lemma ReadRoundGives(c: Config, s: State, r: NodeId, p: nat, s': State)
    requires Inv(c, s) && Enabled(c, s, FinishRead(r)) && s' == Next(c, s, FinishRead(r)) && p == s.rounds[r].page
    requires r in s.nodes && Sized(s.nodes[r], c.pages)
    ensures p < c.pages && s.rounds[r].data.Some? && Running(s', r)
    ensures Has(s', r, p, Read, ReadOnly, s.rounds[r].data.value) && OthersSame(s, s', r, p)
  {
    InstalledCell(c, s, r, p);
  }

  lemma InstalledCell(c: Config, s: State, r: NodeId, p: nat)
    requires Inv(c, s) && r in s.rounds && s.rounds[r].installed && p == s.rounds[r].page
    requires r in s.nodes && Sized(s.nodes[r], c.pages)
    ensures p < c.pages && s.rounds[r].data == Some(s.nodes[r].mem[p]) && s.nodes[r].hw[p] == ReadWrite
  {
    assert RoundShape(c, s, s.rounds[r]);
    assert PageInv(c, s, p);
    assert P.RoundInv(c.initial[p], PageOf(c, s, p), r);
  }

  /** A failed round leaves everything as it was, and the child faults again. */
  lemma FailedRoundGives(c: Config, s: State, r: NodeId, s': State)
    requires Shape(c, s) && Enabled(c, s, FailRound(r)) && s' == Next(c, s, FailRound(r))
    ensures s'.nodes == s.nodes && Running(s', r) && s'.log == s.log
  {
  }
}
