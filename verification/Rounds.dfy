/**
 Rounds of requests: what a round's data slot can hold, why a round fails, that every round ends,
 and the one way in which the tracers can block each other for good.
 */
module Rounds {
  import opened Prelude
  import opened Protection
  import opened PageNode
  import opened Cluster
  import opened Coherence
  import Membership
  import P = PageProtocol

  // ----- one page per write round -----

  lemma OneReply(st: P.PageState, l: P.Place, r: NodeId, i: nat)
    requires P.OnlyAt(st, l) && P.Holds(st, P.AtReply(r, i)) && !st.rounds[r].installed
    ensures st.rounds[r].data.None?
    ensures forall j :: 0 <= j < |st.rounds[r].status| && j != i && st.rounds[r].status[j].InFlight? ==>
              st.rounds[r].status[j].reply.None?
  {
    assert !P.Holds(st, P.AtData(r));
    forall j | 0 <= j < |st.rounds[r].status| && j != i && st.rounds[r].status[j].InFlight?
      ensures st.rounds[r].status[j].reply.None?
    {
      assert !P.Holds(st, P.AtReply(r, j));
    }
  }

  /** A write round never receives a second page: the slot is empty when a page arrives, and no other
      reply carries one. */
  lemma SlotHoldsOnePage(c: Config, s: State, r: NodeId, i: nat)
    requires Inv(c, s) && CanReceive(s, r, i) && s.rounds[r].kind.WriteRound?
    requires s.rounds[r].status[i].reply.Some?
    ensures s.rounds[r].data.None?
    ensures forall j :: 0 <= j < |s.rounds[r].status| && j != i && s.rounds[r].status[j].InFlight? ==>
              s.rounds[r].status[j].reply.None?
  {
    assert RoundShape(c, s, s.rounds[r]);
    if s.rounds[r].installed { InstalledDone(c, s, r); }
    assert PageInv(c, s, s.rounds[r].page);
    var l :| P.OwnedAt(PageOf(c, s, s.rounds[r].page), l);
    OneReply(PageOf(c, s, s.rounds[r].page), l, r, i);
  }

  // ----- why a round fails -----

  /** Request `i` of the round of `r` goes to `q`, and can still bring the page. */
  ghost predicate MayBring(s: State, r: NodeId, i: nat, q: NodeId, p: nat) {
    && r in s.rounds && s.rounds[r].page == p
    && i < |s.rounds[r].status| && i < |s.rounds[r].peers| && s.rounds[r].peers[i] == q
    && (s.rounds[r].data.Some? || s.rounds[r].status[i].Asked? || s.rounds[r].status[i].Reading?
        || (s.rounds[r].status[i].InFlight? && s.rounds[r].status[i].reply.Some?))
  }

  ghost predicate OwnsPage(s: State, q: NodeId, p: nat) {
    q in s.nodes && p < |s.nodes[q].info| && Ownership(s.nodes[q].info[p])
  }

  ghost predicate Ends(step: Step, r: NodeId) {
    step == FinishWrite(r) || step == FinishRead(r) || step == FailRound(r)
  }

  /** What every step on request `step.i` of the round of `step.r` leaves alone. */
  ghost predicate OneRequest(s: State, s': State, r: NodeId, j: nat) {
    && r in s.rounds && r in s'.rounds && s'.rounds == s.rounds[r := s'.rounds[r]]
    && SameButRequest(s.rounds[r], s'.rounds[r], j)
  }

  ghost predicate SameButRequest(rd: Round, rd': Round, j: nat) {
    && rd'.page == rd.page && rd'.peers == rd.peers && rd'.kind == rd.kind && rd'.installed == rd.installed
    && j < |rd.status| && rd'.status == rd.status[j := if j < |rd'.status| then rd'.status[j] else P.Done]
    && (rd.data.Some? ==> rd'.data.Some?)
  }

  function StatusWork(st: P.Status): nat {
    match st
    case Asked => 3
    case Flipped => 2
    case Reading => 2
    case InFlight(_) => 1
    case Done => 0
  }

  lemma StatusEffect(s: State, s': State, r: NodeId, i: nat, st: P.Status)
    requires r in s.rounds && i < |s.rounds[r].status| && StatusWork(st) < StatusWork(s.rounds[r].status[i])
    requires s'.rounds == s.rounds[r := s.rounds[r].(status := s.rounds[r].status[i := st])]
    ensures OneRequest(s, s', r, i)
    ensures StatusWork(s'.rounds[r].status[i]) < StatusWork(s.rounds[r].status[i])
  {
  }

  lemma WriteRequestEffect(c: Config, s: State, step: Step, s': State)
    requires Shape(c, s) && Enabled(c, s, step) && s' == Next(c, s, step)
    requires step.FlipWrite? || step.SnapshotWrite?
    ensures OneRequest(s, s', step.r, step.i)
    ensures StatusWork(s'.rounds[step.r].status[step.i]) < StatusWork(s.rounds[step.r].status[step.i])
  {
    StatusEffect(s, s', step.r, step.i, s'.rounds[step.r].status[step.i]);
  }

  lemma ReadRequestEffect(c: Config, s: State, step: Step, s': State)
    requires Shape(c, s) && Enabled(c, s, step) && s' == Next(c, s, step)
    requires step.BeginRead? || step.SnapshotRead?
    ensures OneRequest(s, s', step.r, step.i)
    ensures StatusWork(s'.rounds[step.r].status[step.i]) < StatusWork(s.rounds[step.r].status[step.i])
  {
    StatusEffect(s, s', step.r, step.i, s'.rounds[step.r].status[step.i]);
  }

  lemma ReplyEffect(c: Config, s: State, step: Step, s': State)
    requires Shape(c, s) && Enabled(c, s, step) && s' == Next(c, s, step)
    requires step.AnswerEmpty? || step.Receive?
    ensures OneRequest(s, s', step.r, step.i)
    ensures StatusWork(s'.rounds[step.r].status[step.i]) < StatusWork(s.rounds[step.r].status[step.i])
  {
  }

  /** A step on a request changes that request only, and leaves less to do for it. */
  lemma RequestEffect(c: Config, s: State, step: Step, s': State)
    requires Shape(c, s) && Enabled(c, s, step) && s' == Next(c, s, step) && RequestStep(step)
    ensures OneRequest(s, s', step.r, step.i)
    ensures StatusWork(s'.rounds[step.r].status[step.i]) < StatusWork(s.rounds[step.r].status[step.i])
  {
    if step.FlipWrite? || step.SnapshotWrite? {
      WriteRequestEffect(c, s, step, s');
    } else if step.BeginRead? || step.SnapshotRead? {
      ReadRequestEffect(c, s, step, s');
    } else {
      ReplyEffect(c, s, step, s');
    }
  }

  lemma AnswerOfOwner(c: Config, s: State, step: Step, s': State, q: NodeId, p: nat)
    requires Shape(c, s) && Enabled(c, s, step) && s' == Next(c, s, step) && RequestStep(step)
    requires MayBring(s, step.r, step.i, q, p) && OwnsPage(s, q, p) && OwnsPage(s', q, p)
    requires OneRequest(s, s', step.r, step.i)
    ensures MayBring(s', step.r, step.i, q, p)
  {
    assert RoundShape(c, s, s.rounds[step.r]);
    if step.FlipWrite? || step.SnapshotWrite? {
      WriteAnswerOfOwner(c, s, step, s', q, p);
    } else if step.BeginRead? || step.SnapshotRead? {
      ReadAnswerOfOwner(c, s, step, s', q, p);
    }
  }

  /** In a write round the owner gives the page up. */
  lemma WriteAnswerOfOwner(c: Config, s: State, step: Step, s': State, q: NodeId, p: nat)
    requires Shape(c, s) && Enabled(c, s, step) && s' == Next(c, s, step)
    requires step.FlipWrite? || step.SnapshotWrite?
    requires MayBring(s, step.r, step.i, q, p) && OwnsPage(s', q, p) && OneRequest(s, s', step.r, step.i)
    ensures MayBring(s', step.r, step.i, q, p)
  {
  }

  lemma ReadAnswerOfOwner(c: Config, s: State, step: Step, s': State, q: NodeId, p: nat)
    requires Shape(c, s) && Enabled(c, s, step) && s' == Next(c, s, step)
    requires step.BeginRead? || step.SnapshotRead?
    requires MayBring(s, step.r, step.i, q, p) && OneRequest(s, s', step.r, step.i)
    ensures MayBring(s', step.r, step.i, q, p)
  {
  }

  /** An answer by a peer that owns the page, and still does afterwards, is not an empty one. */
  lemma RequestMayBring(c: Config, s: State, step: Step, s': State, r: NodeId, i: nat, q: NodeId, p: nat)
    requires Shape(c, s) && Enabled(c, s, step) && s' == Next(c, s, step) && RequestStep(step)
    requires MayBring(s, r, i, q, p) && OwnsPage(s, q, p) && OwnsPage(s', q, p)
    ensures MayBring(s', r, i, q, p)
  {
    RequestEffect(c, s, step, s');
    if step.r == r && step.i == i {
      AnswerOfOwner(c, s, step, s', q, p);
    } else {
      OtherRequestMayBring(s, s', step.r, step.i, r, i, q, p);
    }
  }

  lemma OtherRequestMayBring(s: State, s': State, r0: NodeId, j: nat, r: NodeId, i: nat, q: NodeId, p: nat)
    requires OneRequest(s, s', r0, j) && MayBring(s, r, i, q, p) && (r0 != r || j != i)
    ensures MayBring(s', r, i, q, p)
  {
  }

  lemma OtherMayBring(c: Config, s: State, step: Step, s': State, r: NodeId, i: nat, q: NodeId, p: nat)
    requires Shape(c, s) && Enabled(c, s, step) && s' == Next(c, s, step) && !Ends(step, r)
    requires !RequestStep(step)
    requires MayBring(s, r, i, q, p)
    ensures MayBring(s', r, i, q, p)
  {
    if Subject(step) == Some(r) {
      assert step.Install?;
    } else {
      OtherUntouched(c, s, step, s', r);
    }
  }

  /** `q` owns page `p` in every state of the run. */
  ghost predicate OwnsThroughout(c: Config, s: State, steps: seq<Step>, q: NodeId, p: nat)
    requires Shape(c, s) && ValidRun(c, s, steps)
    decreases |steps|
  {
    OwnsPage(s, q, p) && (steps != [] ==> OwnsThroughout(c, Next(c, s, steps[0]), steps[1..], q, p))
  }

  lemma {:induction false} OwnerAnswers(c: Config, s: State, steps: seq<Step>, r: NodeId, i: nat, q: NodeId, p: nat)
    requires Shape(c, s) && ValidRun(c, s, steps) && MayBring(s, r, i, q, p)
    requires OwnsThroughout(c, s, steps, q, p)
    requires forall k :: 0 <= k < |steps| ==> !Ends(steps[k], r)
    ensures MayBring(Run(c, s, steps), r, i, q, p)
    decreases |steps|
  {
    if steps != [] {
      var step, s' := steps[0], Next(c, s, steps[0]);
      assert OwnsPage(s', q, p);
      if RequestStep(step) {
        RequestMayBring(c, s, step, s', r, i, q, p);
      } else {
        OtherMayBring(c, s, step, s', r, i, q, p);
      }
      OwnerAnswers(c, s', steps[1..], r, i, q, p);
    }
  }

  /** A round fails only if the ownership of the page moved while it was under way: no node owns the
      page from the start of the round to its failure. */
  lemma FailedRoundMissedOwner(c: Config, s: State, r: NodeId, p: nat, steps: seq<Step>, q: NodeId)
    requires Inv(c, s) && CanStartRound(c, s, r, p)
    requires Shape(c, AfterStartRound(s, r, p)) && ValidRun(c, AfterStartRound(s, r, p), steps)
    requires forall k :: 0 <= k < |steps| ==> !Ends(steps[k], r)
    requires CanFail(Run(c, AfterStartRound(s, r, p), steps), r)
    requires q in s.nodes
    ensures !OwnsThroughout(c, AfterStartRound(s, r, p), steps, q, p)
  {
    var s1 := AfterStartRound(s, r, p);
    if q != r && OwnsThroughout(c, s1, steps, q, p) {
      var i := RequestTo(s, r, p, q);
      OwnerAnswers(c, s1, steps, r, i, q, p);
    }
  }

  /** A new round asks every other node. */
  lemma RequestTo(s: State, r: NodeId, p: nat, q: NodeId) returns (i: nat)
    requires Membership.FullMesh(s.conn) && r in s.conn && q in s.conn && q != r && r in s.nodes
    requires p < |s.nodes[r].info|
    ensures MayBring(AfterStartRound(s, r, p), r, i, q, p)
  {
    assert Membership.Lists(s.conn[r], s.conn.Keys - {r});
    assert q in s.conn[r];
    i :| 0 <= i < |s.conn[r]| && s.conn[r][i] == q;
  }

  // ----- every round ends -----

  function RequestsWork(status: seq<P.Status>): nat {
    if status == [] then 0 else RequestsWork(status[..|status| - 1]) + StatusWork(status[|status| - 1])
  }

  /** Outstanding work of a round: unanswered requests, unserved page copies, unread replies, and the
      steps that record the page. */
  function Work(rd: Round): nat {
    RequestsWork(rd.status) + if rd.installed then 1 else 2
  }

  lemma {:induction false} WorkOfUpdate(status: seq<P.Status>, i: nat, st: P.Status)
    requires i < |status|
    ensures RequestsWork(status[i := st]) == RequestsWork(status) - StatusWork(status[i]) + StatusWork(st)
  {
    var k := |status| - 1;
    if i == k {
      assert status[i := st][..k] == status[..k];
    } else {
      assert status[i := st][..k] == status[..k][i := st];
      WorkOfUpdate(status[..k], i, st);
    }
  }

  lemma {:induction false} WorkBound(status: seq<P.Status>)
    ensures RequestsWork(status) <= 3 * |status|
  {
    if status != [] { WorkBound(status[..|status| - 1]); }
  }

  /** The requester whose round a step advances. */
  ghost function Subject(step: Step): Option<NodeId> {
    match step
    case AnswerEmpty(r, _) => Some(r)
    case FlipWrite(r, _) => Some(r)
    case SnapshotWrite(r, _) => Some(r)
    case BeginRead(r, _) => Some(r)
    case SnapshotRead(r, _) => Some(r)
    case Receive(r, _) => Some(r)
    case Install(r) => Some(r)
    case FinishWrite(r) => Some(r)
    case FinishRead(r) => Some(r)
    case FailRound(r) => Some(r)
    case _ => None
  }

  ghost predicate Lighter(s: State, s': State, r: NodeId) {
    r in s.rounds && (r in s'.rounds ==> Work(s'.rounds[r]) < Work(s.rounds[r]))
  }

  lemma EndLighter(c: Config, s: State, step: Step, s': State)
    requires Shape(c, s) && Enabled(c, s, step) && s' == Next(c, s, step) && Subject(step).Some? && !RequestStep(step)
    ensures Lighter(s, s', Subject(step).value)
  {
  }

  /** Each step of a round makes its outstanding work smaller, or ends the round. */
  lemma RoundAdvances(c: Config, s: State, step: Step, s': State)
    requires Shape(c, s) && Enabled(c, s, step) && s' == Next(c, s, step) && Subject(step).Some?
    ensures Lighter(s, s', Subject(step).value)
  {
    if RequestStep(step) {
      RequestEffect(c, s, step, s');
      WorkOfUpdate(s.rounds[step.r].status, step.i, s'.rounds[step.r].status[step.i]);
    } else {
      EndLighter(c, s, step, s');
    }
  }

  lemma OtherUntouched(c: Config, s: State, step: Step, s': State, r: NodeId)
    requires Shape(c, s) && Enabled(c, s, step) && s' == Next(c, s, step) && !RequestStep(step)
    requires r in s.rounds && Subject(step) != Some(r)
    ensures r in s'.rounds && s'.rounds[r] == s.rounds[r]
  {
  }

  /** No other step touches the round. */
  lemma RoundUntouched(c: Config, s: State, step: Step, s': State, r: NodeId)
    requires Shape(c, s) && Enabled(c, s, step) && s' == Next(c, s, step)
    requires r in s.rounds && Subject(step) != Some(r)
    ensures r in s'.rounds && s'.rounds[r] == s.rounds[r]
  {
    if RequestStep(step) {
      RequestEffect(c, s, step, s');
    } else {
      OtherUntouched(c, s, step, s', r);
    }
  }

  ghost function StepsOf(steps: seq<Step>, r: NodeId): nat {
    if steps == [] then 0 else StepsOf(steps[1..], r) + if Subject(steps[0]) == Some(r) then 1 else 0
  }

  /** A round takes a bounded number of steps: as long as it goes on, its steps are paid for by its
      outstanding work, of which it has at most three units a peer and two more. */
  lemma {:induction false} RoundTerminates(c: Config, s: State, steps: seq<Step>, r: NodeId)
    requires Inv(c, s) && ValidRun(c, s, steps) && r in s.rounds
    requires forall k :: 0 <= k < |steps| ==> !Ends(steps[k], r)
    ensures r in Run(c, s, steps).rounds
    ensures StepsOf(steps, r) + Work(Run(c, s, steps).rounds[r]) <= Work(s.rounds[r]) <= 3 * |s.rounds[r].peers| + 2
    decreases |steps|
  {
    WorkBound(s.rounds[r].status);
    assert RoundShape(c, s, s.rounds[r]);
    if steps != [] {
      var step, s' := steps[0], Next(c, s, steps[0]);
      StepInv(c, s, step);
      if Subject(step) == Some(r) {
        RoundAdvances(c, s, step, s');
        StillThere(c, s, step, s', r);
      } else {
        RoundUntouched(c, s, step, s', r);
      }
      RoundTerminates(c, s', steps[1..], r);
    }
  }

  lemma StillThere(c: Config, s: State, step: Step, s': State, r: NodeId)
    requires Shape(c, s) && Enabled(c, s, step) && s' == Next(c, s, step) && r in s.rounds
    requires Subject(step) == Some(r) && !Ends(step, r)
    ensures r in s'.rounds
  {
    if RequestStep(step) { RequestEffect(c, s, step, s'); } else { assert step.Install?; }
  }

  // ----- a node reads a page in once -----

  /** The step by which node `n` installs page `p` in a read round. */
  ghost predicate ReadInstall(s: State, step: Step, n: NodeId, p: nat) {
    step == Install(n) && n in s.rounds && s.rounds[n].kind.ReadRound? && s.rounds[n].page == p
  }

  ghost function ReadInstalls(c: Config, s: State, steps: seq<Step>, n: NodeId, p: nat): nat
    requires Shape(c, s) && ValidRun(c, s, steps)
    decreases |steps|
  {
    if steps == [] then 0
    else (if ReadInstall(s, steps[0], n, p) then 1 else 0) + ReadInstalls(c, Next(c, s, steps[0]), steps[1..], n, p)
  }

  /** Node `n` has had page `p`: its state says so, or is about to say so at the end of a read round. */
  ghost predicate HasHad(s: State, n: NodeId, p: nat) {
    && n in s.nodes && p < |s.nodes[n].info|
    && (s.nodes[n].info[p].Invalid? ==>
          n in s.rounds && s.rounds[n].kind.ReadRound? && s.rounds[n].page == p && s.rounds[n].installed)
  }

  /** While a read round for the page is under way the page state is invalid. */
  lemma ReadRoundInvalid(c: Config, s: State, n: NodeId)
    requires Inv(c, s) && n in s.rounds && s.rounds[n].kind.ReadRound?
    ensures n in s.nodes && s.rounds[n].page < |s.nodes[n].info| && s.nodes[n].info[s.rounds[n].page].Invalid?
  {
    assert RoundShape(c, s, s.rounds[n]);
    assert PageInv(c, s, s.rounds[n].page);
    assert P.RoundInv(c.initial[s.rounds[n].page], PageOf(c, s, s.rounds[n].page), n);
    assert Sized(s.nodes[n], c.pages);
  }

  /** The only step a round with its page installed can take is its end. */
  lemma InstalledEnds(c: Config, s: State, step: Step, n: NodeId)
    requires Inv(c, s) && Enabled(c, s, step) && n in s.rounds && s.rounds[n].installed && Subject(step) == Some(n)
    ensures if s.rounds[n].kind.ReadRound? then step == FinishRead(n) else step == FinishWrite(n)
  {
    InstalledDone(c, s, n);
    InstalledHasPage(c, s, n);
  }

  lemma FinishReadMarks(c: Config, s: State, n: NodeId)
    requires Shape(c, s) && n in s.rounds && n in s.nodes && s.rounds[n].page < |s.nodes[n].info|
    ensures n in AfterFinishRead(c, s, n).nodes
    ensures |AfterFinishRead(c, s, n).nodes[n].info| == |s.nodes[n].info|
    ensures AfterFinishRead(c, s, n).nodes[n].info[s.rounds[n].page].Read?
  {
    assert RoundShape(c, s, s.rounds[n]);
  }

  lemma HasHadStays(c: Config, s: State, step: Step, s': State, n: NodeId, p: nat)
    requires Inv(c, s) && Enabled(c, s, step) && s' == Next(c, s, step) && HasHad(s, n, p) && p < c.pages
    ensures HasHad(s', n, p)
  {
    StepForward(c, s, step, s', n, p);
    if s.nodes[n].info[p].Invalid? {
      if Subject(step) == Some(n) {
        InstalledEnds(c, s, step, n);
        FinishReadMarks(c, s, n);
      } else {
        RoundUntouched(c, s, step, s', n);
      }
    }
  }

  lemma ReadInstallStarts(c: Config, s: State, step: Step, s': State, n: NodeId, p: nat)
    requires Inv(c, s) && Enabled(c, s, step) && s' == Next(c, s, step) && ReadInstall(s, step, n, p)
    ensures !HasHad(s, n, p) && HasHad(s', n, p) && p < c.pages
  {
    ReadRoundInvalid(c, s, n);
    assert RoundShape(c, s, s.rounds[n]);
    StepForward(c, s, step, s', n, p);
  }

  /** Over any run a node installs a page through the read path at most once, and not at all once it has
      had the page. */
  lemma {:induction false} ReadInstalledOnce(c: Config, s: State, steps: seq<Step>, n: NodeId, p: nat)
    requires Inv(c, s) && ValidRun(c, s, steps)
    ensures ReadInstalls(c, s, steps, n, p) <= 1
    ensures HasHad(s, n, p) && p < c.pages ==> ReadInstalls(c, s, steps, n, p) == 0
    decreases |steps|
  {
    if steps != [] {
      var s' := Next(c, s, steps[0]);
      StepInv(c, s, steps[0]);
      if ReadInstall(s, steps[0], n, p) { ReadInstallStarts(c, s, steps[0], s', n, p); }
      if HasHad(s, n, p) && p < c.pages { HasHadStays(c, s, steps[0], s', n, p); }
      ReadInstalledOnce(c, s', steps[1..], n, p);
    }
  }

  // ----- tracers that wait for each other -----

  /** The tracer of `q` takes a page request now: its child runs, or it polls while replies are missing,
      or it polls because the mutex it needs at the end of a write round is taken. */
  ghost predicate TracerServes(s: State, q: NodeId) {
    q in s.rounds ==>
      || (exists i :: 0 <= i < |s.rounds[q].status| && !s.rounds[q].status[i].Done?)
      || (s.rounds[q].installed && s.rounds[q].kind.WriteRound? && q in s.mu)
  }

  /** The tracer of `q` blocks on its mutex at the end of a read round, while the mutex is held by an
      answer that waits for this very tracer. */
  ghost predicate Deadlocked(s: State, q: NodeId) {
    q in s.rounds && s.rounds[q].kind.ReadRound? && s.rounds[q].installed && q in s.mu
  }

  /** A step of some round that can happen now, with the tracer it needs at hand. */
  ghost predicate CanAdvance(c: Config, s: State, step: Step)
    requires Shape(c, s)
  {
    && Subject(step).Some? && Enabled(c, s, step)
    && (step.SnapshotWrite? ==> TracerServes(s, Peer(c, s, step.r, step.i)))
    && (step.SnapshotRead? ==> TracerServes(s, Peer(c, s, step.r, step.i)))
  }

  ghost predicate SomeAdvance(c: Config, s: State)
    requires Shape(c, s)
  {
    exists step :: CanAdvance(c, s, step)
  }

  /** A tracer that does not serve requests can itself go on, unless it is deadlocked. */
  lemma TracerFree(c: Config, s: State, q: NodeId)
    requires Shape(c, s) && q in s.nodes && !Deadlocked(s, q) && !TracerServes(s, q)
    ensures SomeAdvance(c, s)
  {
    assert P.AllDone(s.rounds[q]);
    var step := if !s.rounds[q].installed then (if s.rounds[q].data.Some? then Step.Install(q) else FailRound(q))
                else if s.rounds[q].kind.WriteRound? then FinishWrite(q)
                else FinishRead(q);
    assert CanAdvance(c, s, step);
  }

  /** The answer that holds a node's mutex can be completed. */
  lemma MutexFree(c: Config, s: State, q: NodeId)
    requires Inv(c, s) && q in s.mu && !Deadlocked(s, q)
    ensures SomeAdvance(c, s)
  {
    var (r, i) := s.mu[q];
    assert HolderOf(s, q, r, i);
    ReadingKind(c, s, r, i);
    if TracerServes(s, q) {
      ServesMayServe(c, s, q);
      assert CanAdvance(c, s, SnapshotRead(r, i));
    } else {
      TracerFree(c, s, q);
    }
  }

  lemma ReadingKind(c: Config, s: State, r: NodeId, i: nat)
    requires Inv(c, s) && r in s.rounds && i < |s.rounds[r].status|
    ensures s.rounds[r].status[i].Reading? ==> s.rounds[r].kind.ReadRound?
    ensures s.rounds[r].status[i].Flipped? ==> s.rounds[r].kind.WriteRound?
  {
    assert RoundShape(c, s, s.rounds[r]);
    var p := s.rounds[r].page;
    assert PageInv(c, s, p);
    var st := PageOf(c, s, p);
    assert P.RoundInv(c.initial[p], st, r);
    assert P.StatusInv(c.initial[p], st, st.rounds[r], st.cells[r].synced, st.rounds[r].peers[i],
                       st.rounds[r].status[i]);
  }

  lemma ServesMayServe(c: Config, s: State, q: NodeId)
    requires Inv(c, s) && TracerServes(s, q)
    ensures TracerMayServe(s, q)
  {
    if q in s.rounds && s.rounds[q].installed { InstalledDone(c, s, q); }
  }

  /** A request that waits for an answer gets one as soon as the mutex of the peer is free. */
  lemma AskedFree(c: Config, s: State, r: NodeId, i: nat)
    requires Shape(c, s) && r in s.rounds && i < |s.rounds[r].status| && s.rounds[r].status[i].Asked?
    requires Peer(c, s, r, i) !in s.mu
    ensures SomeAdvance(c, s)
  {
    if !PeerOwns(c, s, r, i) {
      assert CanAdvance(c, s, AnswerEmpty(r, i));
    } else if s.rounds[r].kind.WriteRound? {
      assert CanAdvance(c, s, FlipWrite(r, i));
    } else {
      assert CanAdvance(c, s, BeginRead(r, i));
    }
  }

  /** A request that is not done can be advanced, or a tracer or mutex in its way can be. */
  lemma RequestFree(c: Config, s: State, r: NodeId, i: nat)
    requires Inv(c, s) && r in s.rounds && i < |s.rounds[r].status| && !s.rounds[r].status[i].Done?
    requires !Deadlocked(s, Peer(c, s, r, i))
    ensures SomeAdvance(c, s)
  {
    var q := Peer(c, s, r, i);
    ReadingKind(c, s, r, i);
    match s.rounds[r].status[i]
    case InFlight(_) => assert CanAdvance(c, s, Receive(r, i));
    case Asked => if q in s.mu { MutexFree(c, s, q); } else { AskedFree(c, s, r, i); }
    case Flipped =>
      if TracerServes(s, q) {
        ServesMayServe(c, s, q);
        assert CanAdvance(c, s, SnapshotWrite(r, i));
      } else {
        TracerFree(c, s, q);
      }
    case Reading => MutexFree(c, s, q);
  }

  /** As long as a round is under way and no tracer is deadlocked, some round can advance. */
  lemma RoundsProgress(c: Config, s: State, r: NodeId)
    requires Inv(c, s) && r in s.rounds
    requires forall q :: q in s.nodes ==> !Deadlocked(s, q)
    ensures SomeAdvance(c, s)
  {
    if TracerServes(s, r) {
      if exists i :: 0 <= i < |s.rounds[r].status| && !s.rounds[r].status[i].Done? {
        var i :| 0 <= i < |s.rounds[r].status| && !s.rounds[r].status[i].Done?;
        RequestFree(c, s, r, i);
      } else {
        MutexFree(c, s, r);
      }
    } else {
      TracerFree(c, s, r);
    }
  }

  /** In particular, write rounds alone never block: their tracers poll while they wait. */
  lemma WriteRoundsProgress(c: Config, s: State, r: NodeId)
    requires Inv(c, s) && r in s.rounds
    requires forall q :: q in s.rounds && s.rounds[q].installed ==> s.rounds[q].kind.WriteRound?
    ensures SomeAdvance(c, s)
  {
    RoundsProgress(c, s, r);
  }

  // ----- the deadlock -----

  lemma InstalledHasPage(c: Config, s: State, q: NodeId)
    requires Inv(c, s) && q in s.rounds && s.rounds[q].installed
    ensures s.rounds[q].data.Some?
  {
    assert RoundShape(c, s, s.rounds[q]);
    assert PageInv(c, s, s.rounds[q].page);
    assert P.RoundInv(c.initial[s.rounds[q].page], PageOf(c, s, s.rounds[q].page), q);
  }

  lemma DeadlockStep(c: Config, s: State, step: Step, s': State, q: NodeId)
    requires Shape(c, s) && MutexInv(s) && Enabled(c, s, step) && s' == Next(c, s, step) && Deadlocked(s, q)
    requires P.AllDone(s.rounds[q]) && s.rounds[q].data.Some?
    ensures Deadlocked(s', q)
  {
    var (r, i) := s.mu[q];
    assert HolderOf(s, q, r, i);
  }

  /** A deadlocked tracer stays so in every continuation of the run. */
  lemma {:induction false} DeadlockStays(c: Config, s: State, steps: seq<Step>, q: NodeId)
    requires Inv(c, s) && ValidRun(c, s, steps) && Deadlocked(s, q)
    ensures Deadlocked(Run(c, s, steps), q)
    decreases |steps|
  {
    if steps != [] {
      InstalledDone(c, s, q);
      InstalledHasPage(c, s, q);
      DeadlockStep(c, s, steps[0], Next(c, s, steps[0]), q);
      StepInv(c, s, steps[0]);
      DeadlockStays(c, Next(c, s, steps[0]), steps[1..], q);
    }
  }

  /** A read round that has its page ends at once exactly when the node's mutex is free; otherwise it
      never ends. */
  lemma ReadRoundEnds(c: Config, s: State, q: NodeId)
    requires Inv(c, s) && q in s.rounds && s.rounds[q].kind.ReadRound? && s.rounds[q].installed
    ensures Enabled(c, s, FinishRead(q)) <==> !Deadlocked(s, q)
    ensures Deadlocked(s, q) ==>
              forall steps :: ValidRun(c, s, steps) ==> q in Run(c, s, steps).rounds
  {
    if Deadlocked(s, q) {
      forall steps | ValidRun(c, s, steps) ensures q in Run(c, s, steps).rounds {
        DeadlockStays(c, s, steps, q);
      }
    }
  }

  /** How it comes about: the page is installed, and then a read answer takes the mutex. */
  lemma DeadlockArises(c: Config, s: State, q: NodeId, r: NodeId, i: nat)
    requires Inv(c, s) && CanInstall(s, q) && s.rounds[q].kind.ReadRound?
    requires CanBeginRead(c, s, r, i) && Peer(c, s, r, i) == q
    ensures Shape(c, AfterInstall(c, s, q)) && CanBeginRead(c, AfterInstall(c, s, q), r, i)
    ensures Deadlocked(AfterBeginRead(c, AfterInstall(c, s, q), r, i), q)
  {
    InstallShape(c, s, q);
    assert RoundShape(c, s, s.rounds[r]);
  }
}
