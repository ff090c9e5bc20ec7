/** The lock can be had: a node that can write a free lock word takes the lock, and a holder gives it up. */
module LockProgress {
  import opened Prelude
  import opened Protection
  import opened PageNode
  import opened Cluster
  import opened Coherence
  import opened ReleaseConsistency
  import P = PageProtocol

  /** Node `n` can write the lock word now. */
  ghost predicate CanWriteWord(c: Config, k: Lock, z: System, n: NodeId) {
    && Shape(c, z.s) && Running(z.s, n) && ValidLock(c, k) && k.page < |z.s.nodes[n].hw|
    && z.s.nodes[n].hw[k.page] == ReadWrite
  }

  /** The program is held to the lock's discipline, and to nothing else. */
  lemma ProgramSteps(c: Config, k: Lock, z: System, step: Step)
    requires Shape(c, z.s)
    ensures LockEnabled(c, k, z, Protocol(step)) <==>
            && Enabled(c, z.s, step)
            && (step.Store? ==>
                  && !(step.p == k.page && step.off == k.off)
                  && ((step.p, step.off) in k.protected ==> PcOf(z, step.n) == Critical))
  {
  }

  lemma WritesWord(c: Config, k: Lock, z: System, n: NodeId)
    requires LockInv(c, k, z) && CanWriteWord(c, k, z, n)
    ensures CanStore(c, z.s, n, k.page, k.off)
    ensures Load(z.s, n, k.page, k.off) == LockWord(c, k, z.s)
  {
    assert PageInv(c, z.s, k.page);
    assert P.CellInv(c.initial[k.page], PageOf(c, z.s, k.page), n);
    WriterReadsNewest(c, z.s, n, k.page, k.off);
  }

  lemma StepReachable(c: Config, k: Lock, z: System, step: LockStep, y: System)
    requires LockReachable(c, k, z) && Shape(c, z.s) && LockEnabled(c, k, z, step) && y == LockNext(c, k, z, step)
    ensures LockReachable(c, k, y) && LockInv(c, k, y)
  {
    assert LockFollows(c, k, z, y);
    LockFollowsReachable(c, k, z, y);
    LockReachableInv(c, k, y);
  }

  /** When nobody holds the lock, the exchange takes it, and after the sync the node is in the critical section. */
  lemma FreeLockIsTaken(c: Config, k: Lock, z: System, n: NodeId)
    requires LockReachable(c, k, z) && CanWriteWord(c, k, z, n) && forall m :: !Holder(z, m)
    ensures Shape(c, z.s) && LockEnabled(c, k, z, TestAndSet(n))
    ensures var y := LockNext(c, k, z, TestAndSet(n));
            && LockReachable(c, k, y) && PcOf(y, n) == Acquired && Shape(c, y.s) && LockEnabled(c, k, y, FinishLock(n))
            && var x := LockNext(c, k, y, FinishLock(n));
               LockReachable(c, k, x) && PcOf(x, n) == Critical && forall m :: Holder(x, m) ==> m == n
  {
    LockReachableInv(c, k, z);
    WritesWord(c, k, z, n);
    var y := AfterTestAndSet(c, k, z, n);
    Acquires(c, k, z, n, y);
    assert y == LockNext(c, k, z, TestAndSet(n));
    StepReachable(c, k, z, TestAndSet(n), y);
    Enters(c, k, y, n);
  }

  lemma Enters(c: Config, k: Lock, y: System, n: NodeId)
    requires LockReachable(c, k, y) && LockInv(c, k, y) && PcOf(y, n) == Acquired && Running(y.s, n)
    ensures LockEnabled(c, k, y, FinishLock(n))
    ensures var x := LockNext(c, k, y, FinishLock(n));
            LockReachable(c, k, x) && PcOf(x, n) == Critical && forall m :: Holder(x, m) ==> m == n
  {
    var x := AfterFinishLock(c, y, n);
    assert x == LockNext(c, k, y, FinishLock(n));
    StepReachable(c, k, y, FinishLock(n), x);
    assert Holder(x, n);
  }

  lemma Acquires(c: Config, k: Lock, z: System, n: NodeId, y: System)
    requires LockInv(c, k, z) && CanStore(c, z.s, n, k.page, k.off) && (forall m :: !Holder(z, m))
    requires Load(z.s, n, k.page, k.off) == LockWord(c, k, z.s) && y == AfterTestAndSet(c, k, z, n)
    ensures PcOf(y, n) == Acquired && Running(y.s, n)
  {
  }

  /** While somebody holds the lock, the exchange changes nobody's place, and the word still says so. */
  lemma HeldLockIsRefused(c: Config, k: Lock, z: System, n: NodeId, h: NodeId)
    requires LockReachable(c, k, z) && CanWriteWord(c, k, z, n) && Holder(z, h)
    ensures Shape(c, z.s) && LockEnabled(c, k, z, TestAndSet(n))
    ensures LockNext(c, k, z, TestAndSet(n)).pc == z.pc
    ensures var y := LockNext(c, k, z, TestAndSet(n)); LockInv(c, k, y) && LockWord(c, k, y.s) == 1
  {
    LockReachableInv(c, k, z);
    WritesWord(c, k, z, n);
    LockStepInv(c, k, z, TestAndSet(n));
    StoreContents(c, z.s, n, k.page, k.off, 1, k.page);
  }

  /** A holder that can write the lock word again can unlock, and then nobody holds the lock. */
  lemma HolderUnlocks(c: Config, k: Lock, z: System, n: NodeId)
    requires LockReachable(c, k, z) && CanWriteWord(c, k, z, n) && PcOf(z, n) == Critical
    ensures Shape(c, z.s) && LockEnabled(c, k, z, Unlock(n))
    ensures var y := LockNext(c, k, z, Unlock(n));
            LockReachable(c, k, y) && LockInv(c, k, y) && (forall m :: !Holder(y, m)) && LockWord(c, k, y.s) == 0
  {
    LockReachableInv(c, k, z);
    WritesWord(c, k, z, n);
    var y := AfterUnlock(c, k, z, n);
    assert y == LockNext(c, k, z, Unlock(n));
    StepReachable(c, k, z, Unlock(n), y);
    assert Holder(z, n);
    NobodyLeft(z, y, n);
  }
}
