/**
 The objects of the thread library, whose methods carry out the sections of `Threads` on their fields. A
 method that ends in a switch stops at the switch; what the resumed context does next is a method of its
 own. The ghost parameters `s`, `c`, `w` and `m` say which abstract state, CPU, wait queue and mutex the
 objects show.
 */
module Scheduler {
  import opened Prelude
  import P = ProbeTable
  import StackPool
  import T = Threads

  type Sys = T.Sys

  /** The fields of the objects after a switch. */
  lemma SwitchFields(s: Sys, c: nat)
    requires c < |s.cpus|
    ensures var t := T.Switch(s, c);
            && |t.cpus| == |s.cpus| && t.cpus[c].garbage == s.cpus[c].garbage && |t.threads| == |s.threads|
            && t.cpus[c].seat == (if s.ready == [] then None else Some(s.ready[0]))
            && t.ready == (if s.ready == [] then [] else s.ready[1..])
            && t.queues == s.queues && t.mutexes == s.mutexes && t.total == s.total && t.out == s.out
  {
  }

  class Waitable {
    var waitingQueue: seq<nat>

    constructor ()
      ensures waitingQueue == []
    {
      waitingQueue := [];
    }

    method Enqueue(ctx: nat)
      modifies this
      ensures waitingQueue == old(waitingQueue) + [ctx]
    {
      waitingQueue := waitingQueue + [ctx];
    }

    predicate Empty()
      reads this
    {
      waitingQueue == []
    }

    method Dequeue() returns (ctx: nat)
      requires !Empty()
      modifies this
      ensures [ctx] + waitingQueue == old(waitingQueue)
    {
      ctx := waitingQueue[0];
      waitingQueue := waitingQueue[1..];
    }

    ghost predicate Shows(s: Sys, w: T.Wid)
      reads this
    {
      waitingQueue == T.Q(s, w)
    }
  }

  datatype Status = NoStatus | EndState

  class CpuState {
    var currContext: Option<nat>           // none stands for the null of the main context
    var status: Status
    var garbageCtx: nat
    var garbageKey: P.Word                 // the address of that context, its key among the thread ids
    var stackptr: nat                      // and its stack
    var totalThreads: nat                  // with one CPU, the library's own counters
    var stacksOut: nat
    var nextTid: nat

    /** As the first CPU is once it has made the first thread. */
    constructor ()
      ensures Shows(T.InitSys(1), 0)
    {
      currContext, status, garbageCtx, garbageKey, stackptr := None, NoStatus, 0, 0, 0;
      totalThreads, stacksOut, nextTid := 1, 1, 2;
    }

    ghost function Garbage(): Option<nat>
      reads this
    {
      if status == EndState then Some(garbageCtx) else None
    }

    ghost predicate Shows(s: Sys, c: nat)
      reads this
    {
      && c < |s.cpus| && s.cpus[c].seat == currContext && s.cpus[c].garbage == Garbage()
      && s.total == totalThreads && s.out == stacksOut && nextTid == |s.threads| + 1
    }

    /** The pool has what is not out. */
    ghost predicate Matches(pool: StackPool.Pool)
      reads this, pool, pool.stacks
    {
      pool.Valid() && stacksOut + |pool.Free()| == T.STACKS
    }

    /** The constructor of a thread takes a stack from the pool first, if there is one. */
    method TakeStack(pool: StackPool.Pool, ghost s: Sys, ghost c: nat) returns (stack: Option<nat>)
      requires Shows(s, c) && currContext.Some? && Matches(pool)
      modifies this, pool`tail
      ensures currContext == old(currContext) && Matches(pool)
      ensures stack.Some? <==> old(stacksOut) < T.STACKS
      ensures old(pool.Free()) == pool.Free() + (if stack.Some? then [stack.value] else [])
      ensures Shows(if stack.Some? then T.AfterMake(s, currContext.value) else s, c)
    {
      stack := pool.Pop();
      if stack.Some? { stacksOut := stacksOut + 1; }
    }

    /** The thread that runs here is over. */
    method SetDone(stack: nat, garbage: nat, key: P.Word)
      modifies this
      ensures Garbage() == Some(garbage) && garbageKey == key && stackptr == stack && currContext == old(currContext)
      ensures totalThreads == old(totalThreads) && stacksOut == old(stacksOut) && nextTid == old(nextTid)
    {
      stackptr := stack;
      garbageCtx, garbageKey := garbage, key;
      status := EndState;
    }

    /** Takes what the last context on this CPU left behind out of the thread ids, and gives its stack back. */
    method ThreadHandler(tids: P.FixedHashTable, pool: StackPool.Pool, ghost s: Sys, ghost c: nat)
      returns (reclaimed: Option<nat>)
      requires Shows(s, c) && (status == EndState ==> totalThreads > 0 && stacksOut > 0)
      requires tids.Valid() && P.Distinct(tids.View()) && Matches(pool)
      modifies this, tids.entries, pool`tail, pool.stacks
      ensures Shows(T.Reclaim(s, c), c) && reclaimed == old(Garbage()) && status == NoStatus
      ensures tids.Valid() && P.Distinct(tids.View()) && Matches(pool)
      ensures P.AsMap(tids.View())
           == old(P.AsMap(tids.View())) - (if reclaimed.Some? then {old(garbageKey)} else {})
      ensures pool.Free() == old(pool.Free()) + (if reclaimed.Some? then [old(stackptr)] else [])
    {
      reclaimed := None;
      if status == EndState {
        P.RemoveRefines(tids.View(), garbageKey);
        var removed := tids.Remove(garbageKey);
        var returned := pool.Push(stackptr);
        reclaimed := Some(garbageCtx);
        stacksOut := stacksOut - 1;
        totalThreads := totalThreads - 1;
      }
      status := NoStatus;
    }
  }

  class SchedulerState {
    var readyQueue: seq<nat>

    constructor ()
      ensures readyQueue == []
    {
      readyQueue := [];
    }

    ghost predicate Shows(s: Sys)
      reads this
    {
      readyQueue == s.ready
    }

    predicate HasNext()
      reads this
    {
      readyQueue != []
    }

    method GetNext() returns (ctx: nat)
      requires HasNext()
      modifies this
      ensures [ctx] + readyQueue == old(readyQueue)
    {
      ctx := readyQueue[0];
      readyQueue := readyQueue[1..];
    }

    method PutInReady(ctx: nat)
      modifies this
      ensures readyQueue == old(readyQueue) + [ctx]
    {
      readyQueue := readyQueue + [ctx];
    }

    method WakeOne(wait: Waitable, ghost s: Sys, ghost w: T.Wid)
      requires Shows(s) && wait.Shows(s, w)
      modifies this, wait
      ensures Shows(T.WakeOne(s, w)) && wait.Shows(T.WakeOne(s, w), w)
    {
      if !wait.Empty() {
        var ctx := wait.Dequeue();
        PutInReady(ctx);
      }
    }

    method WakeAll(wait: Waitable, ghost s: Sys, ghost w: T.Wid)
      requires Shows(s) && wait.Shows(s, w)
      modifies this, wait
      ensures Shows(T.WakeAll(s, w)) && wait.Shows(T.WakeAll(s, w), w)
      ensures readyQueue == old(readyQueue) + old(wait.waitingQueue) && wait.Empty()
    {
      ghost var all, first := wait.waitingQueue, readyQueue;
      while !wait.Empty()
        invariant readyQueue + wait.waitingQueue == first + all
        decreases |wait.waitingQueue|
      {
        var ctx := wait.Dequeue();
        PutInReady(ctx);
      }
      T.WakeAllMoves(s, w);
    }

    /** The guarded part of the constructor: the new thread gets the next id and joins the ready queue. */
    method Publish(cpu: CpuState, ghost s: Sys, ghost c: nat) returns (tid: nat)
      requires Shows(s) && cpu.Shows(s, c) && cpu.currContext.Some?
      modifies this, cpu
      ensures tid == |s.threads| + 1
      ensures var t := T.ActCreate(s, c, old(cpu.currContext).value); Shows(t) && cpu.Shows(t, c)
    {
      tid := cpu.nextTid;
      cpu.nextTid := cpu.nextTid + 1;
      PutInReady(tid - 1);
      cpu.totalThreads := cpu.totalThreads + 1;
    }

    /** `ctx_switch` and `ctx_set` up to the change of stacks: the CPU's current context is `next`, or none
        when that is the main context. */
    method CtxSwitch(cpu: CpuState, next: Option<nat>)
      modifies cpu`currContext
      ensures cpu.currContext == next
    {
      cpu.currContext := next;
    }

    /** The next context is taken before the current one is queued; it may not be the same one. */
    method WaitSelfOn(wait: Waitable, cpu: CpuState, ghost s: Sys, ghost c: nat, ghost w: T.Wid, ghost pc: T.Pc)
      requires Shows(s) && wait.Shows(s, w) && cpu.Shows(s, c) && cpu.currContext.Some?
      modifies this, wait, cpu
      ensures var t := T.WaitSelf(s, c, old(cpu.currContext).value, w, pc);
              Shows(t) && wait.Shows(t, w) && cpu.Shows(t, c)
    {
      var me := cpu.currContext.value;
      ghost var u := T.Enqueue(s, me, w, pc);
      SwitchFields(u, c);
      assert T.Q(u, w) == T.Q(s, w) + [me] && u.ready == s.ready && u.cpus == s.cpus;
      if HasNext() {
        var next := GetNext();
        wait.Enqueue(me);
        CtxSwitch(cpu, Some(next));
      } else {
        wait.Enqueue(me);
        CtxSwitch(cpu, None);
      }
    }

    method PutSelfInReady(cpu: CpuState, ghost s: Sys, ghost c: nat) returns (switched: bool)
      requires Shows(s) && cpu.Shows(s, c) && cpu.currContext.Some?
      modifies this, cpu
      ensures switched == (old(readyQueue) != [])
      ensures var t := T.ActYield(s, c, old(cpu.currContext).value); Shows(t) && cpu.Shows(t, c)
    {
      var me := cpu.currContext.value;
      SwitchFields(T.PutInReady(T.SetPc(s, me, T.AtYield), me), c);
      switched := false;
      if HasNext() {
        var next := GetNext();
        PutInReady(me);
        CtxSwitch(cpu, Some(next));
        switched := true;
      }
    }

    method RunNextFromKernel(cpu: CpuState, ghost s: Sys, ghost c: nat) returns (switched: bool)
      requires Shows(s) && cpu.Shows(s, c) && cpu.currContext.None?
      modifies this, cpu
      ensures switched == (old(readyQueue) != [])
      ensures var t := T.ActDispatch(s, c); Shows(t) && cpu.Shows(t, c)
    {
      switched := false;
      if HasNext() {
        var next := GetNext();
        CtxSwitch(cpu, Some(next));
        switched := true;
      }
    }

    method RunNextFromUser(cpu: CpuState, ghost s: Sys, ghost c: nat)
      requires Shows(s) && cpu.Shows(s, c) && cpu.currContext.Some?
      modifies this, cpu
      ensures var t := T.ActQuit(s, c, old(cpu.currContext).value); Shows(t) && cpu.Shows(t, c)
    {
      SwitchFields(T.SetLoc(s, cpu.currContext.value, T.Over(c)), c);
      if HasNext() {
        var next := GetNext();
        CtxSwitch(cpu, Some(next));
      } else {
        CtxSwitch(cpu, None);
      }
    }
  }

  class Mutex {
    const wait: Waitable
    var ownerId: nat
    var isLocked: bool

    constructor ()
      ensures ownerId == 0 && !isLocked && fresh(wait) && wait.waitingQueue == []
    {
      wait := new Waitable();
      ownerId, isLocked := 0, false;
    }

    ghost predicate Shows(s: Sys, m: nat)
      reads this, wait
    {
      wait.Shows(s, T.OnMutex(m)) && T.M(s, m).locked == isLocked && T.M(s, m).owner == ownerId
    }

    /** `privileged_lock` up to its switch, or to its end when there is none. */
    method PrivilegedLock(sched: SchedulerState, cpu: CpuState, ghost s: Sys, ghost c: nat, ghost m: nat)
      returns (switched: bool)
      requires Shows(s, m) && sched.Shows(s) && cpu.Shows(s, c) && cpu.currContext.Some?
      modifies this, wait, sched, cpu
      ensures switched == old(isLocked)
      ensures var t := T.ActLock(s, c, old(cpu.currContext).value, m);
              Shows(t, m) && sched.Shows(t) && cpu.Shows(t, c)
    {
      switched := isLocked;
      ghost var x := cpu.currContext.value;
      if isLocked {
        ghost var t := T.Arrive(s, m, x);
        sched.WaitSelfOn(wait, cpu, t, c, T.OnMutex(m), T.AtLock(m));
      } else {
        LockAcquired(cpu, T.SetPhase(T.Arrive(s, m, x), c, T.Leaving), c, m);
      }
    }

    /** The rest of `privileged_lock`, at once or after the switch back. */
    method LockAcquired(cpu: CpuState, ghost s: Sys, ghost c: nat, ghost m: nat)
      requires Shows(s, m) && cpu.Shows(s, c) && cpu.currContext.Some?
      modifies this
      ensures var t := T.Acquire(s, m, cpu.currContext.value); Shows(t, m) && cpu.Shows(t, c) && t.ready == s.ready
    {
      isLocked := true;
      ownerId := cpu.currContext.value + 1;
    }

    /** Fails, as the source throws, when the caller is not the owner. */
    method PrivilegedUnlock(sched: SchedulerState, cpu: CpuState, ghost s: Sys, ghost c: nat, ghost m: nat)
      returns (ok: bool)
      requires Shows(s, m) && sched.Shows(s) && cpu.Shows(s, c) && cpu.currContext.Some?
      modifies this, wait, sched
      ensures ok == (old(ownerId) == cpu.currContext.value + 1)
      ensures var t := if ok then T.Release(s, m, cpu.currContext.value) else s;
              Shows(t, m) && sched.Shows(t) && cpu.Shows(t, c)
    {
      ok := ownerId == cpu.currContext.value + 1;
      if ok {
        ghost var x, q := cpu.currContext.value, T.Q(s, T.OnMutex(m));
        ghost var v := T.M(s, m).(locked := false, owner := 0, holders := T.M(s, m).holders - {x});
        ownerId := 0;
        isLocked := false;
        if !wait.Empty() {
          ghost var t := T.SetMutex(s, m, v.(locked := true, grantee := Some(q[0])));
          sched.WakeOne(wait, t, T.OnMutex(m));
          isLocked := true;
        }
      }
    }
  }

  class ConditionVariable {
    const q: Waitable

    constructor ()
      ensures fresh(q) && q.waitingQueue == []
    {
      q := new Waitable();
    }

    /** `wait` up to its switch. */
    method Wait(mu: Mutex, sched: SchedulerState, cpu: CpuState, ghost s: Sys, ghost c: nat, ghost v: nat, ghost m: nat)
      returns (ok: bool)
      requires q != mu.wait
      requires mu.Shows(s, m) && q.Shows(s, T.OnCv(v)) && sched.Shows(s) && cpu.Shows(s, c) && cpu.currContext.Some?
      modifies q, mu, mu.wait, sched, cpu
      ensures ok == (old(mu.ownerId) == old(cpu.currContext).value + 1)
      ensures var t := T.ActWait(s, c, old(cpu.currContext).value, v, m);
              mu.Shows(t, m) && q.Shows(t, T.OnCv(v)) && sched.Shows(t) && cpu.Shows(t, c)
    {
      ghost var x := cpu.currContext.value;
      ok := mu.PrivilegedUnlock(sched, cpu, s, c, m);
      if ok {
        sched.WaitSelfOn(q, cpu, T.Release(s, m, x), c, T.OnCv(v), T.AtWait(v, m));
      }
    }

    method Signal(sched: SchedulerState, ghost s: Sys, ghost c: nat, ghost v: nat)
      requires q.Shows(s, T.OnCv(v)) && sched.Shows(s)
      modifies q, sched
      ensures var t := T.WakeOne(T.SetPhase(s, c, T.Leaving), T.OnCv(v)); q.Shows(t, T.OnCv(v)) && sched.Shows(t)
    {
      sched.WakeOne(q, T.SetPhase(s, c, T.Leaving), T.OnCv(v));
    }

    method Broadcast(sched: SchedulerState, ghost s: Sys, ghost c: nat, ghost v: nat)
      requires q.Shows(s, T.OnCv(v)) && sched.Shows(s)
      modifies q, sched
      ensures var t := T.WakeAll(T.SetPhase(s, c, T.Leaving), T.OnCv(v)); q.Shows(t, T.OnCv(v)) && sched.Shows(t)
      ensures sched.readyQueue == old(sched.readyQueue) + old(q.waitingQueue) && q.Empty()
    {
      sched.WakeAll(q, T.SetPhase(s, c, T.Leaving), T.OnCv(v));
    }
  }

  /** A thread's handle with the object it shares with the thread. `freed` counts how often that object was
      given back. */
  class ThreadHandle {
    const wait: Waitable
    var ownedByStack: bool
    var ownedByThread: bool
    var val: bool
    var freed: nat

    constructor ()
      ensures ownedByStack && ownedByThread && !val && freed == 0 && fresh(wait) && wait.waitingQueue == []
    {
      wait := new Waitable();
      ownedByStack, ownedByThread, val, freed := true, true, false, 0;
    }

    ghost predicate Shows(s: Sys, t: nat)
      reads this, wait
    {
      && t < |s.threads| && s.threads[t].shared == T.Shared(ownedByStack, ownedByThread, val, freed)
      && wait.Shows(s, T.OnExit(t))
    }

    /** The end of the wrapper function, after the joiners were woken, with the stack and the context that it was
        given to leave behind. */
    method MarkDead(cpu: CpuState, stackptr: nat, recycle: P.Word, ghost s: Sys, ghost c: nat)
      requires cpu.currContext.Some? && Shows(s, cpu.currContext.value) && cpu.Shows(s, c)
      modifies this, cpu
      ensures cpu.currContext == old(cpu.currContext) && cpu.stackptr == stackptr && cpu.garbageKey == recycle
      ensures var t := T.AfterMark(s, c, cpu.currContext.value); Shows(t, cpu.currContext.value) && cpu.Shows(t, c)
    {
      cpu.SetDone(stackptr, cpu.currContext.value, recycle);
      val := true;
      ownedByStack := false;
      if !ownedByThread { freed := freed + 1; }
    }

    /** The destructor of the handle. */
    method Drop(ghost s: Sys, ghost t: nat)
      requires Shows(s, t)
      modifies this
      ensures Shows(T.AfterDrop(s, t), t)
    {
      ownedByThread := false;
      if !ownedByStack { freed := freed + 1; }
    }

    /** `join` up to its switch, or to its end when the thread is dead. */
    method Join(sched: SchedulerState, cpu: CpuState, ghost s: Sys, ghost c: nat, ghost t: nat)
      returns (switched: bool)
      requires Shows(s, t) && sched.Shows(s) && cpu.Shows(s, c) && cpu.currContext.Some?
      modifies wait, sched, cpu
      ensures switched == !val
      ensures var u := T.ActJoin(s, c, old(cpu.currContext).value, t);
              wait.Shows(u, T.OnExit(t)) && sched.Shows(u) && cpu.Shows(u, c)
    {
      switched := !val;
      if !val {
        sched.WaitSelfOn(wait, cpu, s, c, T.OnExit(t), T.AtJoin(t));
      }
    }
  }
}
