/** What the page-ownership protocol guarantees, in every state of every run. */
module Coherence {
  import opened Protection
  import opened PageNode
  import opened Cluster
  import P = PageProtocol

  /** Some step leads from `s` to `s'`. */
  ghost predicate Follows(c: Config, s: State, s': State) {
    Shape(c, s) && exists step :: Enabled(c, s, step) && s' == Next(c, s, step)
  }

  ghost predicate FollowsAt(c: Config, trace: seq<State>, i: nat) {
    i + 1 < |trace| ==> Follows(c, trace[i], trace[i + 1])
  }

  /** `trace` is what a cluster goes through, from its master's start on. */
  ghost predicate History(c: Config, trace: seq<State>) {
    && ValidConfig(c) && trace != [] && (exists master: NodeId :: trace[0] == InitState(c, master))
    && (forall i: nat :: FollowsAt(c, trace, i))
  }

  ghost predicate Reachable(c: Config, s: State) {
    exists trace :: History(c, trace) && trace[|trace| - 1] == s
  }

  lemma HistoryStart(c: Config, s: State)
    requires ValidConfig(c) && exists master: NodeId :: s == InitState(c, master)
    ensures Inv(c, s)
  {
    var master: NodeId :| s == InitState(c, master);
    InitInv(c, master);
  }

  lemma FollowsInv(c: Config, s: State, s': State)
    requires Inv(c, s) && Follows(c, s, s')
    ensures Inv(c, s')
  {
    var step :| Enabled(c, s, step) && s' == Next(c, s, step);
    StepInv(c, s, step);
  }

  lemma {:induction false} HistoryInv(c: Config, trace: seq<State>, i: nat)
    requires History(c, trace) && i < |trace|
    ensures Inv(c, trace[i])
  {
    if i == 0 {
      HistoryStart(c, trace[0]);
    } else {
      HistoryInv(c, trace, i - 1);
      HistoryNext(c, trace, i - 1, trace[i - 1], trace[i]);
    }
  }

  lemma HistoryNext(c: Config, trace: seq<State>, i: nat, s: State, s': State)
    requires History(c, trace) && i + 1 < |trace| && s == trace[i] && s' == trace[i + 1] && Inv(c, s)
    ensures Inv(c, s')
  {
    assert FollowsAt(c, trace, i);
    FollowsInv(c, s, s');
  }

  lemma ReachableInv(c: Config, s: State)
    requires Reachable(c, s)
    ensures Inv(c, s)
  {
    var trace :| History(c, trace) && trace[|trace| - 1] == s;
    HistoryInv(c, trace, |trace| - 1);
  }

  lemma InitReachable(c: Config, master: NodeId)
    requires ValidConfig(c)
    ensures Reachable(c, InitState(c, master))
  {
    var trace := [InitState(c, master)];
    assert trace[0] == InitState(c, master);
    assert forall i: nat :: FollowsAt(c, trace, i);
    assert History(c, trace);
  }

  lemma FollowsReachable(c: Config, s: State, s': State)
    requires Reachable(c, s) && Follows(c, s, s')
    ensures Reachable(c, s')
  {
    var trace :| History(c, trace) && trace[|trace| - 1] == s;
    LongerHistory(c, trace, s');
    assert (trace + [s'])[|trace|] == s';
  }

  lemma LongerFollows(c: Config, trace: seq<State>, s': State, i: nat)
    requires trace != [] && FollowsAt(c, trace, i)
    requires Follows(c, trace[|trace| - 1], s')
    ensures FollowsAt(c, trace + [s'], i)
  {
    var longer := trace + [s'];
    if i + 1 < |trace| {
      assert longer[i] == trace[i] && longer[i + 1] == trace[i + 1];
    } else if i + 1 == |trace| {
      assert longer[i] == trace[i] && longer[i + 1] == s';
    }
  }

  lemma LongerHistory(c: Config, trace: seq<State>, s': State)
    requires History(c, trace) && Follows(c, trace[|trace| - 1], s')
    ensures History(c, trace + [s'])
  {
    forall i: nat ensures FollowsAt(c, trace + [s'], i) {
      assert FollowsAt(c, trace, i);
      LongerFollows(c, trace, s', i);
    }
    assert (trace + [s'])[0] == trace[0];
  }

  /** Every run from a reachable state ends in one. */
  lemma {:induction false} RunReachable(c: Config, s: State, steps: seq<Step>)
    requires Reachable(c, s) && Shape(c, s) && ValidRun(c, s, steps)
    ensures Reachable(c, Run(c, s, steps))
    decreases |steps|
  {
    if steps != [] {
      assert Follows(c, s, Next(c, s, steps[0]));
      FollowsReachable(c, s, Next(c, s, steps[0]));
      RunReachable(c, Next(c, s, steps[0]), steps[1..]);
    }
  }

  /** The ownership of a page is at exactly one place: with a node, with a responder that has yet to
      copy the page, in a reply, or in a requester that has yet to record it. */
  lemma OwnershipConserved(c: Config, s: State, p: nat)
    requires Reachable(c, s) && p < c.pages
    ensures Shape(c, s)
    ensures exists l :: P.OnlyAt(PageOf(c, s, p), l)
  {
    ReachableInv(c, s);
    assert PageInv(c, s, p);
    var l :| P.OwnedAt(PageOf(c, s, p), l);
  }

  /** Wherever the ownership is, the copy that travels with it has every write made to the page. */
  lemma NoWriteLost(c: Config, s: State, p: nat, l: P.Place, copy: Copy)
    requires Reachable(c, s) && p < c.pages && Shape(c, s)
    requires P.Holds(PageOf(c, s, p), l) && P.CopyAt(PageOf(c, s, p), l, copy)
    ensures copy.version == |s.log[p]|
    ensures copy.words == P.Contents(c.initial[p], s.log[p], |s.log[p]|)
  {
    ReachableInv(c, s);
    assert PageInv(c, s, p);
    var st := PageOf(c, s, p);
    var l0 :| P.OwnedAt(st, l0);
    CarriedCopy(c.initial[p], st, l, copy);
  }

  lemma CarriedCopy(initial: seq<Word>, st: P.PageState, l: P.Place, copy: Copy)
    requires P.Inv(initial, st) && P.OwnedAt(st, l) && P.CopyAt(st, l, copy)
    ensures P.Faithful(initial, st.log, copy)
  {
    match l
    case AtOwner(n) => assert P.CellInv(initial, st, n);
    case AtFlipped(r, i) =>
      assert P.RoundInv(initial, st, r);
      assert P.StatusInv(initial, st, st.rounds[r], st.cells[r].synced, st.rounds[r].peers[i], st.rounds[r].status[i]);
      assert P.CellInv(initial, st, st.rounds[r].peers[i]);
    case AtReply(r, i) =>
      assert P.RoundInv(initial, st, r);
      assert P.StatusInv(initial, st, st.rounds[r], st.cells[r].synced, st.rounds[r].peers[i], st.rounds[r].status[i]);
    case AtData(r) => assert P.RoundInv(initial, st, r);
    case AtInstalled(r) => assert P.RoundInv(initial, st, r);
  }

  lemma OneWriter(st: P.PageState, l: P.Place, n: NodeId, m: NodeId)
    requires P.Latest(st, l)
    requires n in st.cells && st.cells[n].hw.ReadWrite? && !P.ReadInstalled(st, n)
    requires m in st.cells && st.cells[m].hw.ReadWrite? && !P.ReadInstalled(st, m)
    ensures n == m
  {
    assert P.AtNode(st, l, n) && P.AtNode(st, l, m);
  }

  /** No two children can write the same page at the same time. */
  lemma WritersExclusive(c: Config, s: State, n: NodeId, m: NodeId, p: nat)
    requires Reachable(c, s) && p < c.pages && Shape(c, s)
    requires Running(s, n) && s.nodes[n].hw[p].ReadWrite?
    requires Running(s, m) && s.nodes[m].hw[p].ReadWrite?
    ensures n == m
  {
    ReachableInv(c, s);
    assert PageInv(c, s, p);
    var l :| P.OwnedAt(PageOf(c, s, p), l);
    OneWriter(PageOf(c, s, p), l, n, m);
  }

  /** A child that can write reads the newest contents. */
  lemma WriterReadsNewest(c: Config, s: State, n: NodeId, p: nat, off: nat)
    requires Inv(c, s) && p < c.pages && Running(s, n)
    requires s.nodes[n].hw[p].ReadWrite? && off < |s.nodes[n].mem[p].words|
    ensures s.nodes[n].mem[p] == Copy(|s.log[p]|, P.Contents(c.initial[p], s.log[p], |s.log[p]|))
  {
    assert PageInv(c, s, p);
    var st := PageOf(c, s, p);
    var l :| P.OwnedAt(st, l);
    P.StoreIsLatest(c.initial[p], st, n, off, l);
  }

  /** Every load returns what the page held after some prefix of its writes, no older than the
      loading node's last sync. */
  lemma LoadFresh(c: Config, s: State, n: NodeId, p: nat)
    requires Inv(c, s) && p < c.pages && CanLoad(s, n, p)
    ensures s.synced[n][p] <= s.nodes[n].mem[p].version <= |s.log[p]|
    ensures s.nodes[n].mem[p].words == P.Contents(c.initial[p], s.log[p], s.nodes[n].mem[p].version)
  {
    assert PageInv(c, s, p);
    assert P.CellInv(c.initial[p], PageOf(c, s, p), n);
  }

  /** With release consistency compiled in, owning a page and holding its write state are the same,
      and the owned-but-shared state never occurs. */
  lemma OwnershipIsWrite(c: Config, s: State, n: NodeId, p: nat)
    requires Reachable(c, s) && n in s.nodes && p < c.pages && p < |s.nodes[n].info|
    ensures Ownership(s.nodes[n].info[p]) <==> Writable(s.nodes[n].info[p])
    ensures !s.nodes[n].info[p].Owned?
  {
    ReachableInv(c, s);
    assert PageInv(c, s, p);
    assert P.CellInv(c.initial[p], PageOf(c, s, p), n);
  }

  // ----- a node never goes back -----

  /** The page a round is about to install is at least as new as the requester's copy. */
  lemma InstallIsNewer(c: Config, s: State, r: NodeId)
    requires Inv(c, s) && CanInstall(s, r)
    ensures RoundShape(c, s, s.rounds[r])
    ensures s.nodes[r].mem[s.rounds[r].page].version <= s.rounds[r].data.value.version
  {
    assert RoundShape(c, s, s.rounds[r]);
    var p := s.rounds[r].page;
    assert PageInv(c, s, p);
    var st := PageOf(c, s, p);
    var l :| P.OwnedAt(st, l);
    assert P.CellInv(c.initial[p], st, r) && P.RoundInv(c.initial[p], st, r);
    if s.rounds[r].kind.WriteRound? {
      assert P.Holds(st, P.AtData(r)) && P.CopyAt(st, P.AtData(r), s.rounds[r].data.value);
    }
  }

  /** What steps that neither add a node, nor write, install or sync, leave alone. */
  ghost predicate Quiet(s: State, s': State) {
    && s'.log == s.log && s'.synced == s.synced && s'.nodes.Keys == s.nodes.Keys
    && (forall n :: n in s.nodes ==> KeepsCopies(s.nodes[n], s'.nodes[n]))
  }

  ghost predicate KeepsCopies(v: NodeView, v': NodeView) {
    v'.mem == v.mem && |v'.info| == |v.info|
    && forall p :: 0 <= p < |v.info| && !v.info[p].Invalid? ==> !v'.info[p].Invalid?
  }

  ghost predicate IsQuiet(step: Step) {
    !step.Join? && !step.Store? && !step.Sync? && !step.Install?
  }

  ghost predicate RequestStep(step: Step) {
    step.AnswerEmpty? || step.FlipWrite? || step.SnapshotWrite? || step.BeginRead? || step.SnapshotRead?
    || step.Receive?
  }

  lemma RequestQuiet(c: Config, s: State, step: Step, s': State)
    requires Shape(c, s) && Enabled(c, s, step) && RequestStep(step) && s' == Next(c, s, step)
    ensures Quiet(s, s')
  {
    if step.SnapshotWrite? || step.SnapshotRead? { SnapshotQuiet(c, s, step, s'); }
  }

  lemma SnapshotQuiet(c: Config, s: State, step: Step, s': State)
    requires Shape(c, s) && Enabled(c, s, step) && (step.SnapshotWrite? || step.SnapshotRead?) && s' == Next(c, s, step)
    ensures Quiet(s, s')
  {
  }

  lemma FaultQuiet(c: Config, s: State, step: Step, s': State)
    requires Shape(c, s) && Enabled(c, s, step) && s' == Next(c, s, step)
    requires step.Reenable? || step.StartRound? || step.FailRound?
    ensures Quiet(s, s')
  {
  }

  lemma FinishWriteQuiet(c: Config, s: State, r: NodeId)
    requires Shape(c, s) && CanFinish(s, r, P.WriteRound)
    ensures Quiet(s, AfterFinishWrite(c, s, r))
  {
  }

  lemma FinishReadQuiet(c: Config, s: State, r: NodeId)
    requires Shape(c, s) && CanFinish(s, r, P.ReadRound)
    ensures Quiet(s, AfterFinishRead(c, s, r))
  {
  }

  lemma FinishQuiet(c: Config, s: State, step: Step, s': State)
    requires Shape(c, s) && Enabled(c, s, step) && s' == Next(c, s, step)
    requires step.FinishWrite? || step.FinishRead?
    ensures Quiet(s, s')
  {
    if step.FinishWrite? { FinishWriteQuiet(c, s, step.r); } else { FinishReadQuiet(c, s, step.r); }
  }

  lemma QuietStep(c: Config, s: State, step: Step, s': State)
    requires Shape(c, s) && Enabled(c, s, step) && s' == Next(c, s, step)
    requires IsQuiet(step)
    ensures Quiet(s, s')
  {
    if RequestStep(step) {
      RequestQuiet(c, s, step, s');
    } else if step.FinishWrite? || step.FinishRead? {
      FinishQuiet(c, s, step, s');
    } else {
      FaultQuiet(c, s, step, s');
    }
  }

  /** `s'` is no further back than `s` for node `n` and page `p`. */
  ghost predicate Forward(s: State, s': State, n: NodeId, p: nat) {
    && n in s.nodes && n in s'.nodes
    && p < |s.nodes[n].mem| == |s'.nodes[n].mem| && p < |s.nodes[n].info| == |s'.nodes[n].info|
    && s.nodes[n].mem[p].version <= s'.nodes[n].mem[p].version
    && (!s.nodes[n].info[p].Invalid? ==> !s'.nodes[n].info[p].Invalid?)
  }

  lemma JoinForward(c: Config, s: State, m: NodeId, via: NodeId, contents: seq<Copy>, n: NodeId, p: nat)
    requires Shape(c, s) && Cluster.CanJoin(c, s, m, via, contents) && n in s.nodes && p < c.pages
    ensures Forward(s, Cluster.AfterJoin(c, s, m, via, contents), n, p)
  {
    assert Sized(s.nodes[n], c.pages);
  }

  lemma VersionBound(c: Config, s: State, n: NodeId, p: nat)
    requires Inv(c, s) && n in s.nodes && p < c.pages && Sized(s.nodes[n], c.pages)
    ensures s.nodes[n].mem[p].version <= |s.log[p]|
  {
    assert PageInv(c, s, p);
    assert P.CellInv(c.initial[p], PageOf(c, s, p), n);
  }

  lemma StoreForward(c: Config, s: State, m: NodeId, p0: nat, off: nat, val: Word, n: NodeId, p: nat)
    requires Shape(c, s) && Cluster.CanStore(c, s, m, p0, off) && n in s.nodes && p < c.pages
    requires Sized(s.nodes[n], c.pages) && s.nodes[n].mem[p].version <= |s.log[p]|
    ensures Forward(s, Cluster.AfterStore(s, m, p0, off, val), n, p)
  {
  }

  lemma SyncForward(c: Config, s: State, m: NodeId, n: NodeId, p: nat)
    requires Shape(c, s) && Running(s, m) && n in s.nodes && p < c.pages
    ensures Forward(s, Cluster.AfterSync(c, s, m), n, p)
  {
    assert Sized(s.nodes[n], c.pages);
  }

  lemma InstallForward(c: Config, s: State, r: NodeId, n: NodeId, p: nat)
    requires Inv(c, s) && Cluster.CanInstall(s, r) && n in s.nodes && p < c.pages
    ensures Forward(s, Cluster.AfterInstall(c, s, r), n, p)
  {
    assert Sized(s.nodes[n], c.pages);
    InstallIsNewer(c, s, r);
  }

  lemma QuietForward(s: State, s': State, n: NodeId, p: nat)
    requires Quiet(s, s') && n in s.nodes && p < |s.nodes[n].info| && p < |s.nodes[n].mem|
    ensures Forward(s, s', n, p)
  {
    assert KeepsCopies(s.nodes[n], s'.nodes[n]);
  }

  lemma LoudForward(c: Config, s: State, step: Step, n: NodeId, p: nat)
    requires Inv(c, s) && Enabled(c, s, step) && !IsQuiet(step) && n in s.nodes && p < c.pages
    ensures Forward(s, Next(c, s, step), n, p)
  {
    assert Sized(s.nodes[n], c.pages);
    VersionBound(c, s, n, p);
    match step
    case Join(m, via, contents) => JoinForward(c, s, m, via, contents, n, p);
    case Store(m, p0, off, val) => StoreForward(c, s, m, p0, off, val, n, p);
    case Sync(m) => SyncForward(c, s, m, n, p);
    case Install(r) => InstallForward(c, s, r, n, p);
  }

  lemma StepForward(c: Config, s: State, step: Step, s': State, n: NodeId, p: nat)
    requires Inv(c, s) && Enabled(c, s, step) && s' == Next(c, s, step) && n in s.nodes && p < c.pages
    ensures Forward(s, s', n, p)
  {
    if IsQuiet(step) {
      assert Sized(s.nodes[n], c.pages);
      QuietStep(c, s, step, s');
      QuietForward(s, s', n, p);
    } else {
      LoudForward(c, s, step, n, p);
    }
  }

  /** Over any run, a node's copy of a page never goes back to an older version, and once a node has
      had a page it never again asks for it as a reader. */
  lemma {:induction false} RunForward(c: Config, s: State, steps: seq<Step>, n: NodeId, p: nat)
    requires Inv(c, s) && ValidRun(c, s, steps) && n in s.nodes && p < c.pages
    ensures Forward(s, Run(c, s, steps), n, p)
    ensures !s.nodes[n].info[p].Invalid? ==>
              P.NewRound(Run(c, s, steps).nodes[n].info[p], p, []).kind.WriteRound?
              || Ownership(Run(c, s, steps).nodes[n].info[p])
    decreases |steps|
  {
    assert Sized(s.nodes[n], c.pages);
    if steps != [] {
      StepForward(c, s, steps[0], Next(c, s, steps[0]), n, p);
      StepInv(c, s, steps[0]);
      RunForward(c, Next(c, s, steps[0]), steps[1..], n, p);
    }
  }

  /** `sync` records the number of writes each covered page has then; no other step of a node that is
      already there changes the record. */
  lemma SyncedRecord(c: Config, s: State, step: Step, s': State, n: NodeId)
    requires Inv(c, s) && Enabled(c, s, step) && s' == Next(c, s, step) && n in s.nodes
    ensures n in s'.synced
    ensures step == Sync(n) ==> |s'.synced[n]| == c.pages
    ensures step == Sync(n) ==> forall p :: 0 <= p < c.pages && p < c.total ==> s'.synced[n][p] == |s.log[p]|
    ensures step != Sync(n) ==> s'.synced[n] == s.synced[n]
  {
    if IsQuiet(step) { QuietStep(c, s, step, s'); }
  }
}
