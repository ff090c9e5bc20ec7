/**
 What each call of the thread library comes to, in terms of queues, seats and mutexes alone: a section can always
 be entered when the guard is free, and what it leaves behind; and the short runs that are whole calls.
 */
module ThreadCalls {
  import opened Prelude
  import opened Threads
  import opened ThreadMutexes
  import J = ThreadJoins
  import R = ThreadRuns

  /** CPU `c` has switched: the front of the ready queue `ready` has the seat, or the main context if there is none. */
  predicate GoesTo(ready: seq<nat>, t: Sys, c: nat) {
    && c < |t.cpus| && t.cpus[c].phase == Landing
    && if ready == [] then t.cpus[c].seat == None && t.ready == []
       else t.cpus[c].seat == Some(ready[0]) && t.ready == ready[1..]
  }

  /** The section on CPU `c` has come to its end, and the context there goes on. */
  predicate GoesOn(s: Sys, t: Sys, c: nat) {
    c < |s.cpus| && c < |t.cpus| && t.cpus[c] == s.cpus[c].(phase := Leaving)
  }

  /** All wait queues but `w` are as they were. */
  ghost predicate OtherQueues(s: Sys, t: Sys, w: Wid) {
    forall v :: v != w ==> Q(t, v) == Q(s, v)
  }

  /** Context `x` is about to do `op` on CPU `c`. */
  ghost predicate Begins(n: nat, s: Sys, c: nat, x: nat, op: Op) {
    R.Reachable(n, s) && c < |s.cpus| && s.cpus[c].phase == Inside(op) && s.cpus[c].seat == Some(x)
  }

  // ----- switches -----

  lemma SwitchGoesTo(s: Sys, c: nat)
    requires c < |s.cpus|
    ensures GoesTo(s.ready, Switch(s, c), c)
    ensures Switch(s, c).queues == s.queues && Switch(s, c).mutexes == s.mutexes
  {
  }

  lemma WaitSelfGoesTo(s: Sys, c: nat, x: nat, w: Wid, pc: Pc)
    requires c < |s.cpus| && x < |s.threads|
    ensures var t := WaitSelf(s, c, x, w, pc);
            && GoesTo(s.ready, t, c) && Q(t, w) == Q(s, w) + [x] && OtherQueues(s, t, w) && t.mutexes == s.mutexes
  {
    SwitchGoesTo(Enqueue(s, x, w, pc), c);
  }

  /** The end of a thread leaves its CPU to the front of the ready queue. */
  lemma QuitGoesTo(n: nat, s: Sys, c: nat, x: nat, t: Sys)
    requires Begins(n, s, c, x, Quit) && t == Next(s, Act(c))
    ensures GoesTo(s.ready, t, c) && At(t, x, Over(c)) && t.queues == s.queues && t.mutexes == s.mutexes
  {
    R.ReachableInv(n, s);
    OnCpuNow(s, c);
    QuitPlaces(s, c, x);
    SwitchGoesTo(SetLoc(s, x, Over(c)), c);
    assert OnList(SetLoc(s, x, Over(c)), s.ready, InReady);
  }

  lemma LockWaits(s: Sys, c: nat, x: nat, m: nat)
    requires Places(s, None) && Seated(s, c, x) && x < |s.threads| && M(s, m).locked
    ensures var t := ActLock(s, c, x, m);
            && GoesTo(s.ready, t, c) && Q(t, OnMutex(m)) == Q(s, OnMutex(m)) + [x] && OtherQueues(s, t, OnMutex(m))
            && t.mutexes == s.mutexes[m := M(s, m).(arrivals := M(s, m).arrivals + [x])]
            && At(t, x, InQueue(OnMutex(m)))
  {
    var u := Arrive(s, m, x);
    MutexPlaces(s, u, None);
    WaitSelfGoesTo(u, c, x, OnMutex(m), AtLock(m));
    J.WaitSelfSelf(u, c, x, OnMutex(m), AtLock(m));
    forall v | v != OnMutex(m) ensures Q(ActLock(s, c, x, m), v) == Q(s, v) { assert Q(u, v) == Q(s, v); }
  }

  lemma LockTakes(s: Sys, c: nat, x: nat, m: nat)
    requires c < |s.cpus| && x < |s.threads| && !M(s, m).locked && M(s, m).holders == {}
    ensures var t := ActLock(s, c, x, m);
            && GoesOn(s, t, c) && t.ready == s.ready && t.queues == s.queues && Is(t, x, User)
            && M(t, m).locked && M(t, m).owner == x + 1 && M(t, m).holders == {x}
            && t.mutexes == s.mutexes[m := M(t, m)]
  {
  }

  /** A lock in use puts the caller at the end of the mutex's queue; a free one makes it the holder. */
  lemma LockTakesOrWaits(n: nat, s: Sys, c: nat, x: nat, m: nat, t: Sys)
    requires Begins(n, s, c, x, Lock(m)) && t == Next(s, Act(c))
    ensures M(s, m).locked ==>
              && GoesTo(s.ready, t, c) && Q(t, OnMutex(m)) == Q(s, OnMutex(m)) + [x] && OtherQueues(s, t, OnMutex(m))
              && M(t, m) == M(s, m).(arrivals := M(s, m).arrivals + [x]) && At(t, x, InQueue(OnMutex(m)))
    ensures !M(s, m).locked ==>
              && GoesOn(s, t, c) && t.ready == s.ready && t.queues == s.queues
              && M(t, m).locked && M(t, m).owner == x + 1 && M(t, m).holders == {x} && Is(t, x, User)
    ensures forall k :: k != m ==> M(t, k) == M(s, k)
  {
    R.ReachableInv(n, s);
    OnCpuNow(s, c);
    assert MutexOk(s, m);
    if M(s, m).locked { LockWaits(s, c, x, m); } else { LockTakes(s, c, x, m); }
  }

  /** Who is ready, and who waits for mutex `m`, after its holder gave it up. */
  function ReadyAfter(s: Sys, m: nat): seq<nat> {
    if Q(s, OnMutex(m)) == [] then s.ready else s.ready + [Q(s, OnMutex(m))[0]]
  }

  function WaitingAfter(s: Sys, m: nat): seq<nat> {
    if Q(s, OnMutex(m)) == [] then [] else Q(s, OnMutex(m))[1..]
  }

  lemma ReleaseHands(s: Sys, m: nat, x: nat)
    requires M(s, m).holders == {x}
    ensures var t := Release(s, m, x);
            && t.ready == ReadyAfter(s, m) && Q(t, OnMutex(m)) == WaitingAfter(s, m) && OtherQueues(s, t, OnMutex(m))
            && M(t, m).owner == 0 && M(t, m).holders == {} && (M(t, m).locked <==> Q(s, OnMutex(m)) != [])
            && t.cpus == s.cpus
  {
    ReleaseKeeps(s, m, x);
  }

  /** Unlocking by the holder readies the oldest waiter, who alone can get the mutex now, or frees it if there is
      none; the caller goes on. */
  lemma UnlockReadies(n: nat, s: Sys, c: nat, x: nat, m: nat, t: Sys)
    requires Begins(n, s, c, x, Unlock(m)) && t == Next(s, Act(c))
    ensures GoesOn(s, t, c) && OtherQueues(s, t, OnMutex(m))
    ensures x in M(s, m).holders ==>
              && t.ready == ReadyAfter(s, m) && Q(t, OnMutex(m)) == WaitingAfter(s, m)
              && M(t, m).owner == 0 && M(t, m).holders == {} && (M(t, m).locked <==> Q(s, OnMutex(m)) != [])
    ensures x !in M(s, m).holders ==> t.ready == s.ready && t.queues == s.queues && t.mutexes == s.mutexes
  {
    R.ReachableInv(n, s);
    assert MutexOk(s, m);
    var u := SetPhase(s, c, Leaving);
    assert M(u, m) == M(s, m) && Q(u, OnMutex(m)) == Q(s, OnMutex(m)) && OtherQueues(s, u, OnMutex(m));
    if x in M(s, m).holders { UnlockHands(s, u, c, x, m); }
  }

  lemma UnlockHands(s: Sys, u: Sys, c: nat, x: nat, m: nat)
    requires M(s, m).owner == x + 1 && M(s, m).holders == {x} && u == SetPhase(s, c, Leaving) && c < |s.cpus|
    ensures var t := ActUnlock(s, c, x, m);
            && GoesOn(s, t, c) && OtherQueues(s, t, OnMutex(m))
            && t.ready == ReadyAfter(s, m) && Q(t, OnMutex(m)) == WaitingAfter(s, m)
            && M(t, m).owner == 0 && M(t, m).holders == {} && (M(t, m).locked <==> Q(s, OnMutex(m)) != [])
  {
    ReleaseHands(u, m, x);
    forall v | v != OnMutex(m) ensures Q(Release(u, m, x), v) == Q(s, v) { assert Q(u, v) == Q(s, v); }
  }

  /** Waiting gives the mutex up, queues the caller, and leaves the CPU to whoever is ready then. */
  lemma WaitGoesTo(n: nat, s: Sys, c: nat, x: nat, v: nat, m: nat, t: Sys)
    requires Begins(n, s, c, x, Wait(v, m)) && t == Next(s, Act(c))
    ensures x in M(s, m).holders ==>
              && GoesTo(ReadyAfter(s, m), t, c) && Q(t, OnCv(v)) == Q(s, OnCv(v)) + [x]
              && Q(t, OnMutex(m)) == WaitingAfter(s, m) && M(t, m).holders == {}
    ensures x !in M(s, m).holders ==> t == SetPhase(s, c, Leaving)
  {
    R.ReachableInv(n, s);
    OnCpuNow(s, c);
    assert MutexOk(s, m);
    if x in M(s, m).holders { HolderWaits(s, c, x, v, m); }
  }

  lemma HolderWaits(s: Sys, c: nat, x: nat, v: nat, m: nat)
    requires Places(s, None) && Seated(s, c, x) && x < |s.threads| && M(s, m).owner == x + 1 && M(s, m).holders == {x}
    ensures var t := ActWait(s, c, x, v, m);
            && GoesTo(ReadyAfter(s, m), t, c) && Q(t, OnCv(v)) == Q(s, OnCv(v)) + [x]
            && Q(t, OnMutex(m)) == WaitingAfter(s, m) && M(t, m).holders == {}
  {
    var u := Release(s, m, x);
    J.ReleaseSelf(s, c, m, x);
    ReleaseHands(s, m, x);
    WaitSelfGoesTo(u, c, x, OnCv(v), AtWait(v, m));
    assert Q(u, OnCv(v)) == Q(s, OnCv(v));
    assert Q(WaitSelf(u, c, x, OnCv(v), AtWait(v, m)), OnMutex(m)) == Q(u, OnMutex(m));
  }

  /** Joining a thread that is not dead queues the caller; joining a dead one does nothing. */
  lemma JoinGoesTo(n: nat, s: Sys, c: nat, x: nat, y: nat, t: Sys)
    requires Begins(n, s, c, x, Join(y)) && t == Next(s, Act(c))
    ensures y < |s.threads|
    ensures !s.threads[y].pc.Marked? ==>
              GoesTo(s.ready, t, c) && Q(t, OnExit(y)) == Q(s, OnExit(y)) + [x] && OtherQueues(s, t, OnExit(y))
    ensures s.threads[y].pc.Marked? ==> t == SetPhase(s, c, Leaving)
    ensures t.mutexes == s.mutexes
  {
    R.ReachableInv(n, s);
    OnCpuNow(s, c);
    if !s.threads[y].shared.val { WaitSelfGoesTo(s, c, x, OnExit(y), AtJoin(y)); }
  }

  /** Yielding puts the caller behind those who are ready, and does nothing when nobody is. */
  lemma YieldGoesTo(n: nat, s: Sys, c: nat, x: nat, t: Sys)
    requires Begins(n, s, c, x, Yield) && t == Next(s, Act(c))
    ensures s.ready != [] ==> GoesTo(s.ready + [x], t, c) && At(t, x, InReady)
    ensures s.ready == [] ==> t == SetPhase(s, c, Leaving)
    ensures t.queues == s.queues && t.mutexes == s.mutexes
  {
    R.ReachableInv(n, s);
    OnCpuNow(s, c);
    if s.ready != [] {
      SwitchGoesTo(PutInReady(SetPc(s, x, AtYield), x), c);
      assert At(s, s.ready[0], InReady);
    }
  }

  /** The scheduling loop gives the CPU to the front of the ready queue. */
  lemma DispatchGoesTo(n: nat, s: Sys, c: nat, t: Sys)
    requires R.Reachable(n, s) && c < |s.cpus| && s.cpus[c].phase.Inside? && s.cpus[c].seat.None?
    requires t == Next(s, Act(c))
    ensures s.ready != [] ==> GoesTo(s.ready, t, c)
    ensures s.ready == [] ==> t == SetPhase(s, c, Leaving)
    ensures t.queues == s.queues && t.mutexes == s.mutexes
  {
    R.ReachableInv(n, s);
    assert SeatOk(s, c);
    SwitchGoesTo(s, c);
  }

  /** Making a thread adds one that will start in the wrapper function, behind those who are ready. */
  lemma CreateReadies(n: nat, s: Sys, c: nat, x: nat, t: Sys)
    requires Begins(n, s, c, x, Create) && t == Next(s, Act(c))
    ensures |t.threads| == |s.threads| + 1 && t.ready == s.ready + [|s.threads|] && GoesOn(s, t, c)
    ensures t.threads[|s.threads|] == Thread(Fresh, InReady, Shared(true, true, false, 0), false)
    ensures t.queues == s.queues && t.mutexes == s.mutexes
  {
    R.ReachableInv(n, s);
    OnCpuNow(s, c);
    J.ActGrows(s, c, x, Create);
  }

  /** The end of a thread's function readies everybody who joined it, oldest first. */
  lemma FinishReadies(n: nat, s: Sys, c: nat, x: nat, t: Sys)
    requires Begins(n, s, c, x, Finish) && t == Next(s, Act(c))
    ensures t.ready == s.ready + Q(s, OnExit(x)) && Q(t, OnExit(x)) == [] && OtherQueues(s, t, OnExit(x))
    ensures GoesOn(s, t, c) && t.mutexes == s.mutexes && Is(t, x, Finishing)
  {
    R.ReachableInv(n, s);
    OnCpuNow(s, c);
    FinishParts(s, c, x);
  }

  lemma FinishParts(s: Sys, c: nat, x: nat)
    requires c < |s.cpus| && x < |s.threads|
    ensures var t := ActFinish(s, c, x);
            && t.ready == s.ready + Q(s, OnExit(x)) && Q(t, OnExit(x)) == [] && OtherQueues(s, t, OnExit(x))
            && GoesOn(s, t, c) && t.mutexes == s.mutexes && Is(t, x, Finishing)
  {
    var u, t := SetPhase(s, c, Leaving), ActFinish(s, c, x);
    WakeAllMoves(u, OnExit(x));
    WakeAllKeeps(u, OnExit(x));
    forall v | v != OnExit(x) ensures Q(t, v) == Q(s, v) { assert Q(t, v) == Q(WakeAll(u, OnExit(x)), v); }
  }

  // ----- whole calls -----

  /** What a context in its own code, or on its way through a call, may ask for. */
  ghost predicate MayCall(s: Sys, x: nat, op: Op) {
    x < |s.threads| &&
    match op
    case Lock(m) => s.threads[x].pc == User || s.threads[x].pc == Relock(m)
    case Join(y) => s.threads[x].pc == User && y < |s.threads| && s.threads[y].shared.byThread
    case Create => s.threads[x].pc == Making
    case Quit => s.threads[x].pc == Marked
    case Dispatch => false
    case _ => s.threads[x].pc == User
  }

  /** When the guard is free, any CPU can enter the section its context asks for, and an idle one the dispatch. */
  lemma MayEnter(n: nat, s: Sys, c: nat, op: Op)
    requires R.Reachable(n, s) && c < |s.cpus| && s.guard.None?
    requires if s.cpus[c].seat.Some? then MayCall(s, s.cpus[c].seat.value, op) else op.Dispatch?
    ensures Enabled(s, Enter(c, op))
    ensures Next(s, Enter(c, op)) == s.(guard := Some(c), cpus := s.cpus[c := s.cpus[c].(phase := Inside(op))])
  {
    R.ReachableInv(n, s);
  }

  lemma FirstStep(s: Sys, st: Step, rest: seq<Step>)
    requires Enabled(s, st) && ValidRun(Next(s, st), rest)
    ensures ValidRun(s, [st] + rest) && Run(s, [st] + rest) == Run(Next(s, st), rest)
  {
    var steps := [st] + rest;
    assert steps[0] == st && steps[1..] == rest;
  }

  lemma ThreeSteps(s: Sys, a: Step, b: Step, d: Step, s1: Sys, s2: Sys)
    requires Enabled(s, a) && s1 == Next(s, a) && Enabled(s1, b) && s2 == Next(s1, b) && Enabled(s2, d)
    ensures ValidRun(s, [a, b, d]) && Run(s, [a, b, d]) == Next(s2, d)
  {
    FirstStep(s2, d, []);
    FirstStep(s1, b, [d] + []);
    FirstStep(s, a, [b] + ([d] + []));
    assert [a] + ([b] + ([d] + [])) == [a, b, d];
  }

  /** Out of the section: the guard is free, and nothing else has changed. */
  lemma MayLeave(s: Sys, c: nat)
    requires c < |s.cpus| && s.cpus[c].phase == Leaving
    ensures Enabled(s, Leave(c))
    ensures Next(s, Leave(c)) == s.(guard := None, cpus := s.cpus[c := s.cpus[c].(phase := Out)])
  {
  }

  /** Locking a free mutex is a call of three steps that ends with the caller in its code as the holder. */
  lemma LockingRun(n: nat, s: Sys, c: nat, x: nat, m: nat)
    requires R.Reachable(n, s) && Seated(s, c, x) && s.guard.None? && MayCall(s, x, Lock(m)) && !M(s, m).locked
    ensures var steps := [Enter(c, Lock(m)), Act(c), Leave(c)];
            && ValidRun(s, steps)
            && var z := Run(s, steps);
               && z.guard == None && z.cpus == s.cpus && Is(z, x, User) && M(z, m).holders == {x}
               && z.ready == s.ready && z.queues == s.queues
  {
    MayEnter(n, s, c, Lock(m));
    R.ReachableInv(n, s);
    var s1 := Next(s, Enter(c, Lock(m)));
    R.ReachableNext(n, s, Enter(c, Lock(m)));
    var s2 := Next(s1, Act(c));
    LockTakesOrWaits(n, s1, c, x, m, s2);
    ActMoved(s1, c, x, Lock(m));
    MayLeave(s2, c);
    ThreeSteps(s, Enter(c, Lock(m)), Act(c), Leave(c), s1, s2);
    assert Next(s2, Leave(c)).cpus == s.cpus;
  }

  /** A thread whose function is over wakes all who joined it and is out of the section again. */
  lemma FinishingRun(n: nat, s: Sys, c: nat, x: nat)
    requires R.Reachable(n, s) && Seated(s, c, x) && s.guard.None? && MayCall(s, x, Finish)
    ensures var steps := [Enter(c, Finish), Act(c), Leave(c)];
            && ValidRun(s, steps)
            && var z := Run(s, steps);
               && z.guard == None && z.cpus == s.cpus && Is(z, x, Finishing)
               && z.ready == s.ready + Q(s, OnExit(x)) && Q(z, OnExit(x)) == []
  {
    MayEnter(n, s, c, Finish);
    R.ReachableInv(n, s);
    var s1 := Next(s, Enter(c, Finish));
    R.ReachableNext(n, s, Enter(c, Finish));
    var s2 := Next(s1, Act(c));
    FinishReadies(n, s1, c, x, s2);
    ActMoved(s1, c, x, Finish);
    MayLeave(s2, c);
    ThreeSteps(s, Enter(c, Finish), Act(c), Leave(c), s1, s2);
    assert Next(s2, Leave(c)).cpus == s.cpus;
  }

  /** From there it marks itself dead, which its handle sees, and leaves its CPU for good to the next context. */
  lemma LeavingRun(n: nat, s: Sys, c: nat, x: nat)
    requires R.Reachable(n, s) && Seated(s, c, x) && s.guard.None? && Is(s, x, Finishing)
    ensures var steps := [Mark(c), Enter(c, Quit), Act(c)];
            && ValidRun(s, steps)
            && var z := Run(s, steps);
               && GoesTo(s.ready, z, c) && At(z, x, Over(c)) && z.cpus[c].garbage == Some(x) && z.queues == s.queues
               && z.threads[x].shared.val && !z.threads[x].shared.byStack
  {
    R.ReachableInv(n, s);
    OnCpuNow(s, c);
    var s1 := Next(s, Mark(c));
    R.ReachableNext(n, s, Mark(c));
    MayEnter(n, s1, c, Quit);
    R.ReachableNext(n, s1, Enter(c, Quit));
    var s2 := Next(s1, Enter(c, Quit));
    QuitGoesTo(n, s2, c, x, Next(s2, Act(c)));
    ActMoved(s2, c, x, Quit);
    R.ReachableInv(n, s2);
    J.ActSelf(s2, c, x, Quit);
    ThreeSteps(s, Mark(c), Enter(c, Quit), Act(c), s1, s2);
  }

  /** While fewer than 40 stacks are out, a thread can be made; it comes last in the ready queue. */
  lemma CreatingRun(n: nat, s: Sys, c: nat, x: nat)
    requires R.Reachable(n, s) && Seated(s, c, x) && s.guard.None? && Is(s, x, User) && s.out < 40
    ensures var steps := [Make(c), Enter(c, Create), Act(c)];
            && ValidRun(s, steps)
            && var z := Run(s, steps);
               && |z.threads| == |s.threads| + 1 && z.ready == s.ready + [|s.threads|] && z.out == s.out + 1
               && Is(z, |s.threads|, Fresh) && At(z, |s.threads|, InReady) && Is(z, x, User)
  {
    R.ReachableInv(n, s);
    var s1 := Next(s, Make(c));
    R.ReachableNext(n, s, Make(c));
    MayEnter(n, s1, c, Create);
    R.ReachableNext(n, s1, Enter(c, Create));
    var s2 := Next(s1, Enter(c, Create));
    CreateReadies(n, s2, c, x, Next(s2, Act(c)));
    ThreeSteps(s, Make(c), Enter(c, Create), Act(c), s1, s2);
  }

  /** A handle can be destroyed at any time; the object it shared is freed by that if the thread has ended. */
  lemma Dropping(n: nat, s: Sys, c: nat, x: nat, y: nat)
    requires R.Reachable(n, s) && Seated(s, c, x) && s.cpus[c].phase == Out && Is(s, x, User)
    requires y < |s.threads| && s.threads[y].shared.byThread
    ensures Enabled(s, Drop(c, y))
    ensures var h := Next(s, Drop(c, y)).threads[y].shared;
            && !h.byThread && h.frees == (if s.threads[y].pc.Marked? then 1 else 0)
            && h.val == s.threads[y].shared.val
    ensures Next(s, Drop(c, y)) == s.(threads := s.threads[y := Next(s, Drop(c, y)).threads[y]])
  {
    R.SharedFreedOnce(n, s, y);
  }

  // ----- coming back from a switch -----

  /** Where the context that has the seat goes on: with the mutex if it was parked for one, on its way to lock it
      again if it waited on a condition variable, and otherwise in its own code. */
  ghost predicate Resumed(s: Sys, z: Sys, y: nat) {
    y < |s.threads| &&
    match s.threads[y].pc
    case AtLock(m) => Is(z, y, User) && M(z, m).locked && M(z, m).owner == y + 1 && y in M(z, m).holders
    case AtWait(_, m) => Is(z, y, Relock(m))
    case _ => Is(z, y, User)
  }

  lemma LandFields(s: Sys, c: nat)
    requires c < |s.cpus| && s.cpus[c].phase.Landing?
    ensures var t := Next(s, Land(c));
            && t.guard == s.guard && t.ready == s.ready && t.queues == s.queues && t.mutexes == s.mutexes
            && t.cpus == s.cpus[c := s.cpus[c].(phase := Resuming, garbage := None)]
            && |t.threads| == |s.threads|
            && (forall y: nat | y < |s.threads| :: t.threads[y].pc == s.threads[y].pc)
            && (s.cpus[c].garbage.Some? && s.cpus[c].garbage.value < |s.threads| ==>
                  t.threads[s.cpus[c].garbage.value].reclaimed)
  {
    LandMoved(s, c);
    assert Next(s, Land(c)).cpus == s.cpus[c := s.cpus[c].(phase := Resuming, garbage := None)];
  }

  lemma ContinueFields(s: Sys, c: nat)
    requires c < |s.cpus| && s.cpus[c].phase.Resuming?
    ensures var t := Next(s, Continue(c));
            && t.guard == s.guard && t.ready == s.ready && t.queues == s.queues
            && t.cpus == s.cpus[c := s.cpus[c].(phase := Leaving)] && |t.threads| == |s.threads|
            && (forall y: nat | y < |s.threads| :: t.threads[y].reclaimed == s.threads[y].reclaimed)
            && (s.cpus[c].seat.Some? && s.cpus[c].seat.value < |s.threads| ==> Resumed(s, t, s.cpus[c].seat.value))
  {
    ResumeMoved(s, c);
    var r := SetPhase(s, c, Leaving);
    assert Next(s, Continue(c)).cpus == r.cpus;
    if s.cpus[c].seat.Some? && s.cpus[c].seat.value < |s.threads| { ResumeKeeps(r, s.cpus[c].seat.value); }
  }

  /** After a switch the CPU gets out of the section in three steps: the context that has the seat goes on where it
      was parked, and a thread that has ended there is reclaimed. */
  lemma LandingRun(n: nat, s: Sys, c: nat, steps: seq<Step>)
    requires R.Reachable(n, s) && c < |s.cpus| && s.cpus[c].phase.Landing?
    requires steps == [Land(c), Continue(c), Leave(c)]
    ensures ValidRun(s, steps)
    ensures var z := Run(s, steps);
            && z.guard == None && z.cpus == s.cpus[c := s.cpus[c].(phase := Out, garbage := None)]
            && z.ready == s.ready && z.queues == s.queues && |z.threads| == |s.threads|
            && (s.cpus[c].seat.Some? ==> Resumed(s, z, s.cpus[c].seat.value))
            && (s.cpus[c].garbage.Some? ==> s.cpus[c].garbage.value < |s.threads|
                                            && z.threads[s.cpus[c].garbage.value].reclaimed)
  {
    R.ReachableInv(n, s);
    assert SeatOk(s, c) && R.L.GarbageOk(s, c);
    var s1 := Next(s, Land(c));
    var s2 := Next(s1, Continue(c));
    LandContinue(s, c, s1, s2);
    MayLeave(s2, c);
    ThreeSteps(s, Land(c), Continue(c), Leave(c), s1, s2);
  }

  lemma LandContinue(s: Sys, c: nat, s1: Sys, s2: Sys)
    requires c < |s.cpus| && s.cpus[c].phase.Landing? && s1 == Next(s, Land(c)) && s2 == Next(s1, Continue(c))
    requires s.cpus[c].seat.Some? ==> s.cpus[c].seat.value < |s.threads|
    requires s.cpus[c].garbage.Some? ==> s.cpus[c].garbage.value < |s.threads|
    ensures Enabled(s, Land(c)) && Enabled(s1, Continue(c))
    ensures s2.ready == s.ready && s2.queues == s.queues && |s2.threads| == |s.threads|
    ensures s2.cpus == s.cpus[c := s.cpus[c].(phase := Leaving, garbage := None)]
    ensures s.cpus[c].seat.Some? ==> Resumed(s, s2, s.cpus[c].seat.value)
    ensures s.cpus[c].garbage.Some? ==> s2.threads[s.cpus[c].garbage.value].reclaimed
  {
    LandFields(s, c);
    ContinueFields(s1, c);
  }
}
