/**
 The spin lock on top of the ownership protocol: test-and-set on a shared word, then `sync`. The
 program's part of the bargain: only the lock writes the lock word, only a holder unlocks, and the
 words the lock protects are written only by a holder.
 */
module ReleaseConsistency {
  import opened PageNode
  import opened Cluster
  import opened Coherence
  import P = PageProtocol

  /** The lock word, and the words that the lock protects. */
  datatype Lock = Lock(page: nat, off: nat, protected: set<(nat, nat)>)

  /** A holder has seen the old value 0 (`Acquired`), and then has synced (`Critical`). */
  datatype Pc = Outside | Acquired | Critical

  /** `released`: history, the number of writes to each page at the last unlock. */
  datatype System = System(s: State, pc: map<NodeId, Pc>, released: seq<nat>)

  datatype LockStep =
    | Protocol(step: Step)
    | TestAndSet(n: NodeId)
    | FinishLock(n: NodeId)
    | Unlock(n: NodeId)

  function PcOf(y: System, n: NodeId): Pc {
    if n in y.pc then y.pc[n] else Outside
  }

  ghost predicate Holder(y: System, n: NodeId) {
    !PcOf(y, n).Outside?
  }

  ghost predicate ValidLock(c: Config, k: Lock) {
    k.page < c.pages == |c.initial| && k.off < |c.initial[k.page]| && (k.page, k.off) !in k.protected
  }

  ghost predicate Disciplined(k: Lock, y: System, step: Step) {
    step.Store? ==>
      && (step.p, step.off) != (k.page, k.off)
      && ((step.p, step.off) in k.protected ==> PcOf(y, step.n).Critical?)
  }

  ghost predicate LockEnabled(c: Config, k: Lock, y: System, step: LockStep)
    requires Shape(c, y.s)
  {
    match step
    case Protocol(st) => Enabled(c, y.s, st) && Disciplined(k, y, st)
    case TestAndSet(n) => CanStore(c, y.s, n, k.page, k.off)
    case FinishLock(n) => Running(y.s, n) && PcOf(y, n).Acquired?
    case Unlock(n) => CanStore(c, y.s, n, k.page, k.off) && PcOf(y, n).Critical?
  }

  /** An exchange with 1; the lock is taken when the old value was 0. */
  ghost function AfterTestAndSet(c: Config, k: Lock, y: System, n: NodeId): System
    requires Shape(c, y.s) && CanStore(c, y.s, n, k.page, k.off)
  {
    var old_ := Load(y.s, n, k.page, k.off);
    y.(s := AfterStore(y.s, n, k.page, k.off, 1), pc := if old_ == 0 then y.pc[n := Acquired] else y.pc)
  }

  ghost function AfterFinishLock(c: Config, y: System, n: NodeId): System
    requires Shape(c, y.s) && Running(y.s, n)
  {
    y.(s := AfterSync(c, y.s, n), pc := y.pc[n := Critical])
  }

  ghost function AfterUnlock(c: Config, k: Lock, y: System, n: NodeId): System
    requires Shape(c, y.s) && CanStore(c, y.s, n, k.page, k.off)
  {
    System(AfterStore(y.s, n, k.page, k.off, 0), y.pc[n := Outside],
           seq(|y.s.log|, p requires 0 <= p < |y.s.log| => |y.s.log[p]|))
  }

  ghost function LockNext(c: Config, k: Lock, y: System, step: LockStep): System
    requires Shape(c, y.s) && LockEnabled(c, k, y, step)
  {
    match step
    case Protocol(st) => y.(s := Next(c, y.s, st))
    case TestAndSet(n) => AfterTestAndSet(c, k, y, n)
    case FinishLock(n) => AfterFinishLock(c, y, n)
    case Unlock(n) => AfterUnlock(c, k, y, n)
  }

  // ----- the invariant -----

  /** What the lock word holds after all writes. */
  ghost function LockWord(c: Config, k: Lock, s: State): Word
    requires ValidLock(c, k) && |s.log| == c.pages
    requires |P.Contents(c.initial[k.page], s.log[k.page], |s.log[k.page]|)| == |c.initial[k.page]|
  {
    P.Contents(c.initial[k.page], s.log[k.page], |s.log[k.page]|)[k.off]
  }

  /** The write with index `i` to page `p` is to a protected word. */
  ghost predicate ProtectedWrite(k: Lock, s: State, p: nat, i: nat)
    requires p < |s.log| && i < |s.log[p]|
  {
    (p, s.log[p][i].off) in k.protected
  }

  ghost predicate Exclusive(y: System) {
    forall n, m :: Holder(y, n) && Holder(y, m) ==> n == m
  }

  ghost predicate WordInv(c: Config, k: Lock, y: System) {
    && ValidLock(c, k) && |y.s.log| == c.pages
    && |P.Contents(c.initial[k.page], y.s.log[k.page], |y.s.log[k.page]|)| == |c.initial[k.page]|
    && (LockWord(c, k, y.s) != 0 <==> exists n :: Holder(y, n))
  }

  ghost predicate Released(c: Config, y: System) {
    |y.released| == |y.s.log| && forall p :: 0 <= p < |y.s.log| ==> y.released[p] <= |y.s.log[p]|
  }

  /** A node in its critical section has synced after the last unlock, and since then only it has
      written protected words. */
  ghost predicate CriticalInv(c: Config, k: Lock, y: System, n: NodeId, p: nat) {
    && n in y.s.synced && p < |y.s.synced[n]| && p < |y.released| && p < |y.s.log|
    && y.released[p] <= y.s.synced[n][p]
    && (forall i :: y.s.synced[n][p] <= i < |y.s.log[p]| && ProtectedWrite(k, y.s, p, i) ==> y.s.log[p][i].writer == n)
  }

  ghost predicate SectionsInv(c: Config, k: Lock, y: System) {
    forall n, p :: PcOf(y, n).Critical? && 0 <= p < c.pages && p < c.total ==> CriticalInv(c, k, y, n, p)
  }

  ghost predicate LockInv(c: Config, k: Lock, y: System) {
    Inv(c, y.s) && Exclusive(y) && WordInv(c, k, y) && Released(c, y) && SectionsInv(c, k, y)
  }

  // ----- steps keep it -----

  lemma LengthKept(c: Config, s: State, p: nat)
    requires Inv(c, s) && p < c.pages
    ensures |P.Contents(c.initial[p], s.log[p], |s.log[p]|)| == |c.initial[p]|
    ensures P.Chain(c.initial[p], s.log[p])
  {
    assert PageInv(c, s, p);
    if |s.log[p]| > 0 { assert P.Link(c.initial[p], s.log[p], |s.log[p]| - 1); }
  }

  /** A store makes the latest contents what they were, but for one word. */
  lemma StoreContents(c: Config, s: State, n: NodeId, p0: nat, off: nat, val: Word, p: nat)
    requires Inv(c, s) && CanStore(c, s, n, p0, off) && p < c.pages
    ensures var s' := AfterStore(s, n, p0, off, val);
            var before := P.Contents(c.initial[p], s.log[p], |s.log[p]|);
            |s'.log| == c.pages && off < |P.Contents(c.initial[p0], s.log[p0], |s.log[p0]|)|
            && P.Contents(c.initial[p], s'.log[p], |s'.log[p]|) == if p == p0 then before[off := val] else before
  {
    WriterReadsNewest(c, s, n, p0, off);
  }

  lemma QuietLock(c: Config, k: Lock, y: System, s': State)
    requires LockInv(c, k, y) && Inv(c, s') && s'.log == y.s.log
    requires forall n :: n in y.s.synced ==> n in s'.synced && s'.synced[n] == y.s.synced[n]
    ensures LockInv(c, k, y.(s := s'))
  {
    var y' := y.(s := s');
    forall n, p | PcOf(y', n).Critical? && 0 <= p < c.pages && p < c.total ensures CriticalInv(c, k, y', n, p) {
      assert CriticalInv(c, k, y, n, p);
    }
    assert forall n :: Holder(y', n) <==> Holder(y, n);
  }

  /** A sync only makes a node's record newer. */
  lemma SyncLock(c: Config, k: Lock, y: System, n: NodeId)
    requires LockInv(c, k, y) && Running(y.s, n)
    ensures LockInv(c, k, y.(s := AfterSync(c, y.s, n)))
  {
    SyncInv(c, y.s, n);
    var y' := y.(s := AfterSync(c, y.s, n));
    forall m, p | PcOf(y', m).Critical? && 0 <= p < c.pages && p < c.total ensures CriticalInv(c, k, y', m, p) {
      assert CriticalInv(c, k, y, m, p);
    }
    assert forall m :: Holder(y', m) <==> Holder(y, m);
  }

  lemma StoreLock(c: Config, k: Lock, y: System, n: NodeId, p0: nat, off: nat, val: Word)
    requires LockInv(c, k, y) && CanStore(c, y.s, n, p0, off) && Disciplined(k, y, Store(n, p0, off, val))
    ensures LockInv(c, k, y.(s := AfterStore(y.s, n, p0, off, val)))
  {
    StoreInv(c, y.s, n, p0, off, val);
    StoreContents(c, y.s, n, p0, off, val, k.page);
    var y' := y.(s := AfterStore(y.s, n, p0, off, val));
    forall m, p | PcOf(y', m).Critical? && 0 <= p < c.pages && p < c.total ensures CriticalInv(c, k, y', m, p) {
      StoreCritical(c, k, y, n, p0, off, val, m, p);
    }
    assert forall m :: Holder(y', m) <==> Holder(y, m);
  }

  lemma StoreCritical(c: Config, k: Lock, y: System, n: NodeId, p0: nat, off: nat, val: Word, m: NodeId, p: nat)
    requires Exclusive(y) && Shape(c, y.s) && CanStore(c, y.s, n, p0, off)
    requires (p0, off) in k.protected ==> PcOf(y, n).Critical?
    requires PcOf(y, m).Critical? && CriticalInv(c, k, y, m, p)
    ensures CriticalInv(c, k, y.(s := AfterStore(y.s, n, p0, off, val)), m, p)
  {
    var y' := y.(s := AfterStore(y.s, n, p0, off, val));
    assert Holder(y, m);
    forall i | y'.s.synced[m][p] <= i < |y'.s.log[p]| && ProtectedWrite(k, y'.s, p, i)
      ensures y'.s.log[p][i].writer == m
    {
      if i < |y.s.log[p]| {
        assert y'.s.log[p][i] == y.s.log[p][i];
        assert ProtectedWrite(k, y.s, p, i);
      } else {
        assert Holder(y, n);
      }
    }
  }

  /** The exchange sees the newest lock word, so it succeeds only when nobody holds the lock. */
  lemma TestAndSetLock(c: Config, k: Lock, y: System, n: NodeId)
    requires LockInv(c, k, y) && CanStore(c, y.s, n, k.page, k.off)
    ensures LockInv(c, k, AfterTestAndSet(c, k, y, n))
  {
    StoreInv(c, y.s, n, k.page, k.off, 1);
    StoreContents(c, y.s, n, k.page, k.off, 1, k.page);
    WriterReadsNewest(c, y.s, n, k.page, k.off);
    var y' := AfterTestAndSet(c, k, y, n);
    assert Load(y.s, n, k.page, k.off) == LockWord(c, k, y.s);
    if LockWord(c, k, y.s) == 0 {
      assert Holder(y', n);
      assert forall m :: Holder(y', m) ==> m == n || Holder(y, m);
    } else {
      var h :| Holder(y, h);
      assert Holder(y', h);
      assert forall m :: Holder(y', m) <==> Holder(y, m);
    }
    forall m, p | PcOf(y', m).Critical? && 0 <= p < c.pages && p < c.total ensures CriticalInv(c, k, y', m, p) {
      assert CriticalInv(c, k, y, m, p);
      StoreCritical(c, k, y, n, k.page, k.off, 1, m, p);
    }
  }

  lemma FinishLockLock(c: Config, k: Lock, y: System, n: NodeId)
    requires LockInv(c, k, y) && Running(y.s, n) && PcOf(y, n).Acquired?
    ensures LockInv(c, k, AfterFinishLock(c, y, n))
  {
    SyncInv(c, y.s, n);
    var y' := AfterFinishLock(c, y, n);
    assert Holder(y, n);
    assert forall m :: Holder(y', m) <==> Holder(y, m);
    forall m, p | PcOf(y', m).Critical? && 0 <= p < c.pages && p < c.total ensures CriticalInv(c, k, y', m, p) {
      assert Holder(y', m) && Holder(y', n);
    }
  }

  lemma UnlockLock(c: Config, k: Lock, y: System, n: NodeId)
    requires LockInv(c, k, y) && CanStore(c, y.s, n, k.page, k.off) && PcOf(y, n).Critical?
    ensures LockInv(c, k, AfterUnlock(c, k, y, n))
  {
    StoreInv(c, y.s, n, k.page, k.off, 0);
    StoreContents(c, y.s, n, k.page, k.off, 0, k.page);
    var y' := AfterUnlock(c, k, y, n);
    NobodyLeft(y, y', n);
    assert LockWord(c, k, y'.s) == 0;
  }

  /** When the one holder leaves, nobody holds the lock. */
  lemma NobodyLeft(y: System, y': System, n: NodeId)
    requires Exclusive(y) && Holder(y, n) && y'.pc == y.pc[n := Outside]
    ensures forall m :: PcOf(y', m).Outside?
  {
    forall m ensures PcOf(y', m).Outside? {
      assert Holder(y, m) ==> m == n;
    }
  }

  lemma LockStepInv(c: Config, k: Lock, y: System, step: LockStep)
    requires LockInv(c, k, y) && LockEnabled(c, k, y, step)
    ensures LockInv(c, k, LockNext(c, k, y, step))
  {
    match step
    case Protocol(st) => ProtocolLock(c, k, y, st);
    case TestAndSet(n) => TestAndSetLock(c, k, y, n);
    case FinishLock(n) => FinishLockLock(c, k, y, n);
    case Unlock(n) => UnlockLock(c, k, y, n);
  }

  lemma ProtocolLock(c: Config, k: Lock, y: System, step: Step)
    requires LockInv(c, k, y) && Enabled(c, y.s, step) && Disciplined(k, y, step)
    ensures LockInv(c, k, y.(s := Next(c, y.s, step)))
  {
    match step
    case Store(n, p, off, val) => StoreLock(c, k, y, n, p, off, val);
    case Sync(n) => SyncLock(c, k, y, n);
    case _ => OtherLock(c, k, y, step, Next(c, y.s, step));
  }

  lemma OtherLock(c: Config, k: Lock, y: System, step: Step, s': State)
    requires LockInv(c, k, y) && Enabled(c, y.s, step) && !step.Store? && !step.Sync? && s' == Next(c, y.s, step)
    ensures LockInv(c, k, y.(s := s'))
  {
    StepInv(c, y.s, step);
    if IsQuiet(step) { QuietStep(c, y.s, step, s'); }
    QuietLock(c, k, y, s');
  }

  // ----- runs -----

  function LockInit(c: Config, master: NodeId): System
    requires |c.initial| == c.pages
  {
    System(InitState(c, master), map[], seq(c.pages, _ => 0))
  }

  ghost predicate LockRun(c: Config, k: Lock, y: System, steps: seq<LockStep>, z: System)
    decreases |steps|
  {
    if steps == [] then z == y
    else Shape(c, y.s) && LockEnabled(c, k, y, steps[0]) && LockRun(c, k, LockNext(c, k, y, steps[0]), steps[1..], z)
  }

  lemma {:induction false} LockRunInv(c: Config, k: Lock, y: System, steps: seq<LockStep>, z: System)
    requires LockInv(c, k, y) && LockRun(c, k, y, steps, z)
    ensures LockInv(c, k, z)
    decreases |steps|
  {
    if steps != [] {
      LockStepInv(c, k, y, steps[0]);
      LockRunInv(c, k, LockNext(c, k, y, steps[0]), steps[1..], z);
    }
  }

  ghost predicate LockFollows(c: Config, k: Lock, y: System, z: System) {
    Shape(c, y.s) && exists step :: LockEnabled(c, k, y, step) && z == LockNext(c, k, y, step)
  }

  ghost predicate LockFollowsAt(c: Config, k: Lock, trace: seq<System>, i: nat) {
    i + 1 < |trace| ==> LockFollows(c, k, trace[i], trace[i + 1])
  }

  /** `trace` is what a cluster goes through whose lock word starts free. */
  ghost predicate LockHistory(c: Config, k: Lock, trace: seq<System>) {
    && ValidConfig(c) && ValidLock(c, k) && c.initial[k.page][k.off] == 0
    && trace != [] && (exists master: NodeId :: trace[0] == LockInit(c, master))
    && (forall i: nat :: LockFollowsAt(c, k, trace, i))
  }

  ghost predicate LockReachable(c: Config, k: Lock, z: System) {
    exists trace :: LockHistory(c, k, trace) && trace[|trace| - 1] == z
  }

  lemma LockInitInv(c: Config, k: Lock, master: NodeId)
    requires ValidConfig(c) && ValidLock(c, k) && c.initial[k.page][k.off] == 0
    ensures LockInv(c, k, LockInit(c, master))
  {
    InitInv(c, master);
    assert forall n :: !Holder(LockInit(c, master), n);
  }

  lemma LockHistoryStart(c: Config, k: Lock, y: System)
    requires ValidConfig(c) && ValidLock(c, k) && c.initial[k.page][k.off] == 0
    requires exists master: NodeId :: y == LockInit(c, master)
    ensures LockInv(c, k, y)
  {
    var master: NodeId :| y == LockInit(c, master);
    LockInitInv(c, k, master);
  }

  lemma LockFollowsInv(c: Config, k: Lock, y: System, z: System)
    requires LockInv(c, k, y) && LockFollows(c, k, y, z)
    ensures LockInv(c, k, z)
  {
    var step :| LockEnabled(c, k, y, step) && z == LockNext(c, k, y, step);
    LockStepInv(c, k, y, step);
  }

  lemma LockHistoryNext(c: Config, k: Lock, trace: seq<System>, i: nat, y: System, z: System)
    requires LockHistory(c, k, trace) && i + 1 < |trace| && y == trace[i] && z == trace[i + 1] && LockInv(c, k, y)
    ensures LockInv(c, k, z)
  {
    assert LockFollowsAt(c, k, trace, i);
    LockFollowsInv(c, k, y, z);
  }

  lemma {:induction false} LockHistoryInv(c: Config, k: Lock, trace: seq<System>, i: nat)
    requires LockHistory(c, k, trace) && i < |trace|
    ensures LockInv(c, k, trace[i])
  {
    if i == 0 {
      LockHistoryStart(c, k, trace[0]);
    } else {
      LockHistoryInv(c, k, trace, i - 1);
      LockHistoryNext(c, k, trace, i - 1, trace[i - 1], trace[i]);
    }
  }

  lemma LockReachableInv(c: Config, k: Lock, z: System)
    requires LockReachable(c, k, z)
    ensures LockInv(c, k, z)
  {
    var trace :| LockHistory(c, k, trace) && trace[|trace| - 1] == z;
    LockHistoryInv(c, k, trace, |trace| - 1);
  }

  lemma LongerLockFollows(c: Config, k: Lock, trace: seq<System>, z: System, i: nat)
    requires trace != [] && LockFollowsAt(c, k, trace, i) && LockFollows(c, k, trace[|trace| - 1], z)
    ensures LockFollowsAt(c, k, trace + [z], i)
  {
    var longer := trace + [z];
    if i + 1 < |trace| {
      assert longer[i] == trace[i] && longer[i + 1] == trace[i + 1];
    } else if i + 1 == |trace| {
      assert longer[i] == trace[i] && longer[i + 1] == z;
    }
  }

  lemma LockFollowsReachable(c: Config, k: Lock, y: System, z: System)
    requires LockReachable(c, k, y) && LockFollows(c, k, y, z)
    ensures LockReachable(c, k, z)
  {
    var trace :| LockHistory(c, k, trace) && trace[|trace| - 1] == y;
    var longer := trace + [z];
    assert longer[0] == trace[0];
    forall i: nat ensures LockFollowsAt(c, k, longer, i) {
      assert LockFollowsAt(c, k, trace, i);
      LongerLockFollows(c, k, trace, z, i);
    }
    assert longer[|longer| - 1] == z;
  }

  /** Runs stay among the reachable states. */
  lemma {:induction false} LockRunReachable(c: Config, k: Lock, y: System, steps: seq<LockStep>, z: System)
    requires LockReachable(c, k, y) && LockRun(c, k, y, steps, z)
    ensures LockReachable(c, k, z)
    decreases |steps|
  {
    if steps != [] {
      LockFollowsReachable(c, k, y, LockNext(c, k, y, steps[0]));
      LockRunReachable(c, k, LockNext(c, k, y, steps[0]), steps[1..], z);
    }
  }

  // ----- main results -----

  /** At most one node holds the lock. */
  lemma MutualExclusion(c: Config, k: Lock, z: System, n: NodeId, m: NodeId)
    requires LockReachable(c, k, z) && Holder(z, n) && Holder(z, m)
    ensures n == m
  {
    LockReachableInv(c, k, z);
  }

  /** `Unlock` publishes: it records every write made before it. */
  lemma UnlockPublishes(c: Config, k: Lock, y: System, n: NodeId, p: nat)
    requires Shape(c, y.s) && LockEnabled(c, k, y, Unlock(n)) && p < c.pages
    ensures |LockNext(c, k, y, Unlock(n)).released| == c.pages
    ensures LockNext(c, k, y, Unlock(n)).released[p] == |y.s.log[p]|
  {
  }

  /** Release consistency: inside the critical section every load from a covered page has all the
      writes that were made before the last unlock, hence before any earlier one. */
  lemma SeesReleasedWrites(c: Config, k: Lock, z: System, n: NodeId, p: nat)
    requires LockReachable(c, k, z) && PcOf(z, n).Critical?
    requires p < c.pages && p < c.total && Shape(c, z.s) && CanLoad(z.s, n, p)
    ensures p < |z.released| && z.released[p] <= z.s.nodes[n].mem[p].version
    ensures z.s.nodes[n].mem[p].version <= |z.s.log[p]|
    ensures z.s.nodes[n].mem[p].words == P.Contents(c.initial[p], z.s.log[p], z.s.nodes[n].mem[p].version)
  {
    LockReachableInv(c, k, z);
    assert CriticalInv(c, k, z, n, p);
    LoadFresh(c, z.s, n, p);
  }

  lemma ReleasedGrowsStep(c: Config, k: Lock, y: System, step: LockStep)
    requires LockInv(c, k, y) && LockEnabled(c, k, y, step)
    ensures |LockNext(c, k, y, step).released| == |y.released| == c.pages
    ensures forall p :: 0 <= p < c.pages ==> y.released[p] <= LockNext(c, k, y, step).released[p]
  {
  }

  lemma {:induction false} ReleasedGrows(c: Config, k: Lock, y: System, steps: seq<LockStep>, z: System)
    requires LockInv(c, k, y) && LockRun(c, k, y, steps, z)
    ensures |z.released| == |y.released| == c.pages
    ensures forall p :: 0 <= p < c.pages ==> y.released[p] <= z.released[p]
    decreases |steps|
  {
    if steps != [] {
      ReleasedGrowsStep(c, k, y, steps[0]);
      LockStepInv(c, k, y, steps[0]);
      ReleasedGrows(c, k, LockNext(c, k, y, steps[0]), steps[1..], z);
    }
  }

  /** Every write that precedes any unlock is seen by every later critical section, whichever nodes
      are involved and whatever happens in between. */
  lemma EarlierUnlockVisible(c: Config, k: Lock, y: System, m: NodeId, after: seq<LockStep>, z: System, n: NodeId,
      p: nat)
    requires LockReachable(c, k, y) && Shape(c, y.s) && LockEnabled(c, k, y, Unlock(m))
    requires LockRun(c, k, LockNext(c, k, y, Unlock(m)), after, z)
    requires PcOf(z, n).Critical? && p < c.pages && p < c.total && Shape(c, z.s) && CanLoad(z.s, n, p)
    ensures |y.s.log[p]| <= z.s.nodes[n].mem[p].version
  {
    LockReachableInv(c, k, y);
    var x := LockNext(c, k, y, Unlock(m));
    LockStepInv(c, k, y, Unlock(m));
    LockRunInv(c, k, x, after, z);
    ReleasedGrows(c, k, x, after, z);
    UnlockPublishes(c, k, y, m, p);
    assert CriticalInv(c, k, z, n, p);
    LoadFresh(c, z.s, n, p);
  }

  /** Contents between which nobody wrote the word agree on the word. */
  lemma {:induction false} WordUnchanged(initial: seq<Word>, log: seq<P.WriteRecord>, v: nat, w: nat, off: nat)
    requires v <= w <= |log| && P.Chain(initial, log) && off < |initial|
    requires forall i :: v <= i < w ==> log[i].off != off
    ensures |P.Contents(initial, log, v)| == |P.Contents(initial, log, w)| == |initial|
    ensures P.Contents(initial, log, v)[off] == P.Contents(initial, log, w)[off]
    decreases w - v
  {
    if w > v {
      WordUnchanged(initial, log, v, w - 1, off);
      assert P.Link(initial, log, w - 1);
    } else if w > 0 {
      assert P.Link(initial, log, w - 1);
    }
  }

  /** A protected write made after the holder's sync is the holder's own. */
  lemma LateWriteIsOwn(k: Lock, z: System, n: NodeId, p: nat, i: nat)
    requires p < |z.s.log| && i < |z.s.log[p]| && n in z.s.synced && p < |z.s.synced[n]| && z.s.synced[n][p] <= i
    requires (p, z.s.log[p][i].off) in k.protected
    requires forall j :: z.s.synced[n][p] <= j < |z.s.log[p]| && ProtectedWrite(k, z.s, p, j) ==>
               z.s.log[p][j].writer == n
    ensures z.s.log[p][i].writer == n
  {
    assert ProtectedWrite(k, z.s, p, i);
  }

  /** Inside the critical section a load of a protected word returns the value of the last write to
      that word in the whole cluster. */
  lemma ProtectedLoadsAreExact(c: Config, k: Lock, z: System, n: NodeId, p: nat, off: nat)
    requires LockReachable(c, k, z) && PcOf(z, n).Critical? && (p, off) in k.protected
    requires p < c.pages && p < c.total && Shape(c, z.s) && CanLoad(z.s, n, p) && off < |c.initial[p]|
    ensures off < |z.s.nodes[n].mem[p].words|
    ensures |P.Contents(c.initial[p], z.s.log[p], |z.s.log[p]|)| == |c.initial[p]|
    ensures Load(z.s, n, p, off) == P.Contents(c.initial[p], z.s.log[p], |z.s.log[p]|)[off]
  {
    LockReachableInv(c, k, z);
    assert CriticalInv(c, k, z, n, p);
    LoadFresh(c, z.s, n, p);
    LengthKept(c, z.s, p);
    var v := z.s.nodes[n].mem[p].version;
    OwnWritesSeen(c, z.s, n, p);
    forall i | v <= i < |z.s.log[p]| ensures z.s.log[p][i].off != off {
      if z.s.log[p][i].off == off { LateWriteIsOwn(k, z, n, p, i); }
    }
    WordUnchanged(c.initial[p], z.s.log[p], v, |z.s.log[p]|, off);
  }

  /** A node's copy has all the writes the node made itself. */
  lemma OwnWritesSeen(c: Config, s: State, n: NodeId, p: nat)
    requires Inv(c, s) && n in s.nodes && p < c.pages && Sized(s.nodes[n], c.pages)
    ensures forall i :: 0 <= i < |s.log[p]| && s.log[p][i].writer == n ==> i < s.nodes[n].mem[p].version
  {
    assert PageInv(c, s, p);
    assert P.CellInv(c.initial[p], PageOf(c, s, p), n);
  }
}
