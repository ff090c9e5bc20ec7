/** Condition variables, and what becomes of a join that comes too late. */
module Conditions {
  import opened Prelude
  import opened Threads
  import opened ThreadMutexes
  import opened ThreadRuns
  import O = ThreadOrder
  import J = ThreadJoins

  // ----- wait, signal, broadcast -----

  /** `wait` by the holder gives up the mutex and joins the queue in one step under the guard; by anybody
      else it fails and does nothing. */
  lemma WaitIsAtomic(n: nat, s: Sys, c: nat, v: nat, m: nat, t: Sys)
    requires Reachable(n, s) && c < |s.cpus| && s.cpus[c].phase == Inside(Wait(v, m)) && s.cpus[c].seat.Some?
    requires t == Next(s, Act(c))
    ensures var x := SeatOf(s, c);
            if x in M(s, m).holders
            then Q(t, OnCv(v)) == Q(s, OnCv(v)) + [x] && x !in M(t, m).holders && At(t, x, InQueue(OnCv(v)))
                 && (M(t, m).locked <==> Q(s, OnMutex(m)) != [])
            else t == SetPhase(s, c, Leaving)
  {
    ReachableInv(n, s);
    OnCpuNow(s, c);
    HoldersOwn(s, m, SeatOf(s, c));
    if SeatOf(s, c) in M(s, m).holders { HolderWaits(s, c, SeatOf(s, c), v, m, t); }
  }

  lemma HoldersOwn(s: Sys, m: nat, x: nat)
    requires Mutexes(s)
    ensures x in M(s, m).holders <==> M(s, m).owner == x + 1
  {
    assert MutexOk(s, m);
  }

  lemma HolderWaits(s: Sys, c: nat, x: nat, v: nat, m: nat, t: Sys)
    requires Places(s, None) && Seated(s, c, x) && x < |s.threads|
    requires t == WaitSelf(Release(s, m, x), c, x, OnCv(v), AtWait(v, m))
    ensures Q(t, OnCv(v)) == Q(s, OnCv(v)) + [x] && x !in M(t, m).holders && At(t, x, InQueue(OnCv(v)))
    ensures M(t, m).locked <==> Q(s, OnMutex(m)) != []
  {
    ReleaseEffect(s, m, x, v);
    WaitSelfEffect(Release(s, m, x), c, x, v, m);
    WaiterParked(s, c, x, v, m);
  }

  lemma WaiterParked(s: Sys, c: nat, x: nat, v: nat, m: nat)
    requires Places(s, None) && Seated(s, c, x) && x < |s.threads|
    ensures At(WaitSelf(Release(s, m, x), c, x, OnCv(v), AtWait(v, m)), x, InQueue(OnCv(v)))
  {
    ReleasePlaces(s, m, x);
    J.ReleaseSelf(s, c, m, x);
    J.WaitSelfSelf(Release(s, m, x), c, x, OnCv(v), AtWait(v, m));
  }

  lemma ReleaseEffect(s: Sys, m: nat, x: nat, v: nat)
    ensures var t := Release(s, m, x);
            && Q(t, OnCv(v)) == Q(s, OnCv(v)) && x !in M(t, m).holders
            && (M(t, m).locked <==> Q(s, OnMutex(m)) != [])
  {
  }

  lemma WaitSelfEffect(s: Sys, c: nat, x: nat, v: nat, m: nat)
    ensures var t := WaitSelf(s, c, x, OnCv(v), AtWait(v, m));
            t.mutexes == s.mutexes && Q(t, OnCv(v)) == Q(s, OnCv(v)) + [x]
  {
  }

  /** `signal` readies the oldest waiter and no other. */
  lemma SignalWakesOldest(s: Sys, c: nat, v: nat)
    requires c < |s.cpus| && s.cpus[c].phase == Inside(Signal(v))
    ensures var t, q := Next(s, Act(c)), Q(s, OnCv(v));
            if q == [] then t == SetPhase(s, c, Leaving)
            else t.ready == s.ready + [q[0]] && Q(t, OnCv(v)) == q[1..]
                 && forall w :: w != OnCv(v) ==> Q(t, w) == Q(s, w)
  {
  }

  /** `broadcast` readies all waiters, oldest first. */
  lemma BroadcastWakesAll(s: Sys, c: nat, v: nat)
    requires c < |s.cpus| && s.cpus[c].phase == Inside(Broadcast(v))
    ensures var t := Next(s, Act(c));
            && t.ready == s.ready + Q(s, OnCv(v)) && Q(t, OnCv(v)) == []
            && forall w :: w != OnCv(v) ==> Q(t, w) == Q(s, w)
  {
    WakeAllMoves(SetPhase(s, c, Leaving), OnCv(v));
  }

  /** How many waiters of `v` the signals of a run are for; a broadcast is for `all` of them. */
  function Signals(s: Sys, steps: seq<Step>, v: nat, all: nat): nat
    decreases |steps|
  {
    if steps == [] then 0 else SignalsOf(s, steps[0], v, all) + Signals(Next(s, steps[0]), steps[1..], v, all)
  }

  function SignalsOf(s: Sys, st: Step, v: nat, all: nat): nat {
    if st.Act? && OpOf(s, st.c) == Signal(v) then 1
    else if st.Act? && OpOf(s, st.c) == Broadcast(v) then all
    else 0
  }

  /** No wakeup is lost: a waiter with `k` others before it has been woken once the signals given since
      are more than `k`, or there has been a broadcast. */
  lemma {:induction false} NoLostWakeup(s: Sys, steps: seq<Step>, t: Sys, v: nat, k: nat, all: nat)
    requires ValidRun(s, steps) && t == Run(s, steps)
    requires k < |Q(s, OnCv(v))| && Signals(s, steps, v, all) > k && all > k
    ensures |Woken(t, OnCv(v))| > |Woken(s, OnCv(v))| + k
    ensures Woken(t, OnCv(v))[|Woken(s, OnCv(v))| + k] == Q(s, OnCv(v))[k]
    decreases |steps|
  {
    var w := OnCv(v);
    if steps != [] {
      var u := Next(s, steps[0]);
      var rest := steps[1..];
      SignalTakes(s, steps[0], v, all);
      O.StepGrows(s, steps[0]);
      assert O.GrowsAt(s, u, w);
      O.Shifted(Woken(s, w), Q(s, w), Woken(u, w), Q(u, w), k);
      var taken := |Woken(u, w)| - |Woken(s, w)|;
      O.RunGrows(u, rest);
      assert O.GrowsAt(u, t, w);
      if taken <= k { NoLostWakeup(u, rest, t, v, k - taken, all); }
    }
    O.WakeOrder(s, steps, t, w, k);
  }

  lemma SignalTakes(s: Sys, st: Step, v: nat, all: nat)
    requires Enabled(s, st) && Q(s, OnCv(v)) != []
    ensures |Woken(Next(s, st), OnCv(v))| >= |Woken(s, OnCv(v))|
    ensures SignalsOf(s, st, v, all) > 0 ==>
              |Woken(Next(s, st), OnCv(v))| >= |Woken(s, OnCv(v))| + 1
    ensures st.Act? && OpOf(s, st.c) == Broadcast(v) ==>
              |Woken(Next(s, st), OnCv(v))| == |Woken(s, OnCv(v))| + |Q(s, OnCv(v))|
  {
    O.StepGrows(s, st);
    assert O.GrowsAt(s, Next(s, st), OnCv(v));
    if st.Act? && OpOf(s, st.c) == Broadcast(v) { WakeAllMoves(SetPhase(s, st.c, Leaving), OnCv(v)); }
  }

  // ----- the way back from wait -----

  /** The stages of a `wait`: parked, then about to lock, then perhaps parked at the mutex; and back in the
      user's code only with the mutex held. */
  ghost predicate Onward(s: Sys, t: Sys, x: nat)
    requires x < |s.threads| && x < |t.threads|
  {
    match s.threads[x].pc
    case AtWait(v, m) => t.threads[x].pc == AtWait(v, m) || t.threads[x].pc == Relock(m)
    case Relock(m) => t.threads[x].pc == Relock(m) || t.threads[x].pc == AtLock(m)
                      || (t.threads[x].pc == User && M(t, m).holders == {x})
    case AtLock(m) => t.threads[x].pc == AtLock(m) || (t.threads[x].pc == User && M(t, m).holders == {x})
    case _ => true
  }

  lemma WaitReturnsHolding(n: nat, s: Sys, st: Step, x: nat)
    requires Reachable(n, s) && Enabled(s, st) && x < |s.threads|
    ensures x < |Next(s, st).threads| && Onward(s, Next(s, st), x)
  {
    ReachableInv(n, s);
    StepInv(s, st);
    var c := st.c;
    assert SeatOk(s, c);
    if st.Act? && s.cpus[c].seat.Some? {
      OnCpuNow(s, c);
      J.ActOthers(s, c, SeatOf(s, c), OpOf(s, c));
      if x == SeatOf(s, c) {
        LockOnward(s, c, x);
      } else {
        assert J.OtherKept(s, Next(s, st), x, SeatOf(s, c), OpOf(s, c).Finish?);
      }
    } else if st.Act? {
      J.SwitchSelf(s, c, x);
    } else if st.Land? {
      ReclaimThreads(s, c);
    } else if st.Continue? {
      ResumeOnward(s, c, x);
    } else if s.cpus[c].seat.Some? {
      OnCpuNow(s, c);
    }
  }

  lemma LockOnward(s: Sys, c: nat, x: nat)
    requires Inv(s) && Inv(Next(s, Act(c))) && c < |s.cpus| && s.cpus[c].phase.Inside?
    requires Seated(s, c, x) && x < |s.threads| && !Parked(s.threads[x].pc) && Allowed(s, x, s.cpus[c].phase.op)
    ensures x < |Next(s, Act(c)).threads| && Onward(s, Next(s, Act(c)), x)
  {
    var op := s.cpus[c].phase.op;
    J.ActOthers(s, c, x, op);
    if s.threads[x].pc.Relock? {
      var m := op.m;
      MutexPlaces(s, Arrive(s, m, x), None);
      if M(s, m).locked {
        J.WaitSelfSelf(Arrive(s, m, x), c, x, OnMutex(m), AtLock(m));
      } else {
        AcquireHolds(SetPhase(Arrive(s, m, x), c, Leaving), m, x);
        OwnerHolds(Next(s, Act(c)), m, x);
      }
    }
  }

  lemma AcquireHolds(s: Sys, m: nat, x: nat)
    requires x < |s.threads|
    ensures var t := Acquire(s, m, x); x < |t.threads| && t.threads[x].pc == User && M(t, m).owner == x + 1
  {
  }

  lemma ResumeOnward(s: Sys, c: nat, x: nat)
    requires Inv(s) && Inv(AfterResume(s, c)) && c < |s.cpus| && s.cpus[c].phase.Resuming? && x < |s.threads|
    ensures x < |AfterResume(s, c).threads| && Onward(s, AfterResume(s, c), x)
  {
    ResumeThreads(s, c);
    if s.cpus[c].seat.Some? { OnCpuNow(s, c); }
    if Seated(s, c, x) && s.threads[x].pc.AtLock? {
      ResumeHolds(s, c, x, s.threads[x].pc.m);
      OwnerHolds(AfterResume(s, c), s.threads[x].pc.m, x);
    }
  }

  lemma OwnerHolds(s: Sys, m: nat, x: nat)
    requires Mutexes(s) && M(s, m).owner == x + 1
    ensures M(s, m).holders == {x}
  {
    assert MutexOk(s, m);
  }

  lemma ResumeHolds(s: Sys, c: nat, x: nat, m: nat)
    requires c < |s.cpus| && Seated(s, c, x) && x < |s.threads| && s.threads[x].pc == AtLock(m)
    ensures M(AfterResume(s, c), m).owner == x + 1
  {
    AcquireHolds(SetPhase(s, c, Leaving), m, x);
  }

  // ----- joining too late -----

  /** Context `x` waits for a thread that has woken its joiners already. */
  predicate Lost(s: Sys, x: nat, t: nat) {
    J.Joining(s, x, t) && J.Ended(s, t) && x != t
  }

  /** A join is too late exactly when it comes between the waking of the joiners and the marking. */
  lemma JoinTooLate(n: nat, s: Sys, c: nat, t: nat)
    requires Reachable(n, s) && c < |s.cpus| && s.cpus[c].phase == Inside(Join(t)) && s.cpus[c].seat.Some?
    ensures Lost(Next(s, Act(c)), SeatOf(s, c), t) <==> Is(s, t, Finishing)
  {
    ReachableInv(n, s);
    OnCpuNow(s, c);
    var x := SeatOf(s, c);
    J.ActOthers(s, c, x, Join(t));
    J.WaitSelfSelf(s, c, x, OnExit(t), AtJoin(t));
    if t != x { assert J.OtherKept(s, Next(s, Act(c)), t, x, false); }
  }

  /** Then it never returns. */
  lemma {:induction false} LostForever(s: Sys, steps: seq<Step>, x: nat, t: nat)
    requires Inv(s) && ValidRun(s, steps) && Lost(s, x, t)
    ensures Lost(Run(s, steps), x, t)
    decreases |steps|
  {
    if steps != [] {
      StepInv(s, steps[0]);
      LostStays(s, steps[0], x, t);
      LostForever(Next(s, steps[0]), steps[1..], x, t);
    }
  }

  lemma LostStays(s: Sys, st: Step, x: nat, t: nat)
    requires Inv(s) && Enabled(s, st) && Lost(s, x, t)
    ensures Lost(Next(s, st), x, t)
  {
    var c := st.c;
    assert ThreadOk(s, x, None) && ThreadOk(s, t, None) && SeatOk(s, c);
    if st.Act? {
      LostAct(s, c, x, t);
    } else if st.Land? {
      ReclaimThreads(s, c);
    } else if st.Continue? {
      ResumeThreads(s, c);
    } else if s.cpus[c].seat.Some? {
      OnCpuNow(s, c);
    }
  }

  lemma LostAct(s: Sys, c: nat, x: nat, t: nat)
    requires Inv(s) && c < |s.cpus| && s.cpus[c].phase.Inside? && Lost(s, x, t)
    ensures Lost(Next(s, Act(c)), x, t)
  {
    assert ThreadOk(s, x, None) && SeatOk(s, c);
    if s.cpus[c].seat.None? {
      J.SwitchSelf(s, c, x);
      J.SwitchSelf(s, c, t);
    } else {
      OnCpuNow(s, c);
      var y, op := SeatOf(s, c), OpOf(s, c);
      J.ActOthers(s, c, y, op);
      J.ActSelf(s, c, y, op);
      assert J.OtherKept(s, Next(s, Act(c)), x, y, op.Finish?);
      if t != y { assert J.OtherKept(s, Next(s, Act(c)), t, y, op.Finish?); }
    }
  }

  // ----- two CPUs on which a join is lost -----

  /** Thread 0 made thread 1 on CPU 0; thread 1 runs on CPU 1 and is at `pc`. */
  function TwoRun(pc: Pc): Sys {
    Sys(None, [Cpu(Some(0), Out, None), Cpu(Some(1), Out, None)],
        [Thread(User, OnCpu(0), Shared(true, false, false, 0), false),
         Thread(pc, OnCpu(1), Shared(true, true, false, 0), false)],
        [], [0, 1], map[], map[], map[], 2, 2)
  }

  /** The same before thread 1 is dispatched, and before it is made. */
  function OneRuns(made: bool): Sys {
    var t0 := Thread(User, OnCpu(0), Shared(true, false, false, 0), false);
    var t1 := Thread(Fresh, InReady, Shared(true, true, false, 0), false);
    Sys(None, [Cpu(Some(0), Out, None), Cpu(None, Out, None)], if made then [t0, t1] else [t0],
        if made then [1] else [], [0], map[], map[], map[], if made then 2 else 1, if made then 2 else 1)
  }

  /** One section of a CPU, without and with a switch. */
  function Section(s: Sys, c: nat, op: Op): Sys {
    Next(Next(Next(s, Enter(c, op)), Act(c)), Leave(c))
  }

  function Dispatched(s: Sys, c: nat): Sys {
    Next(Next(Next(Next(Next(s, Enter(c, Dispatch)), Act(c)), Land(c)), Continue(c)), Leave(c))
  }

  lemma SectionReachable(n: nat, s: Sys, c: nat, op: Op)
    requires Reachable(n, s) && Enabled(s, Enter(c, op))
    requires Enabled(Next(Next(s, Enter(c, op)), Act(c)), Leave(c))
    ensures Reachable(n, Section(s, c, op))
  {
    ReachableNext(n, s, Enter(c, op));
    ReachableNext(n, Next(s, Enter(c, op)), Act(c));
    ReachableNext(n, Next(Next(s, Enter(c, op)), Act(c)), Leave(c));
  }

  lemma DispatchedReachable(n: nat, s: Sys, c: nat)
    requires Reachable(n, s) && Enabled(s, Enter(c, Dispatch)) && s.ready != []
    ensures Reachable(n, Dispatched(s, c))
  {
    var a := Next(s, Enter(c, Dispatch));
    var b := Next(a, Act(c));
    ReachableNext(n, s, Enter(c, Dispatch));
    ReachableNext(n, a, Act(c));
    var d := Next(b, Land(c));
    ReachableNext(n, b, Land(c));
    LandMoved(b, c);
    ReachableNext(n, d, Continue(c));
    ResumeMoved(d, c);
    ReachableNext(n, Next(d, Continue(c)), Leave(c));
  }

  lemma FirstDispatch()
    ensures Dispatched(InitSys(2), 0) == OneRuns(false)
  {
  }

  lemma SecondDispatch()
    ensures Dispatched(OneRuns(true), 1) == TwoRun(User)
  {
  }

  lemma OneMakes()
    ensures Section(Next(OneRuns(false), Make(0)), 0, Create) == OneRuns(true)
  {
  }

  lemma TwoRunReachable()
    ensures Reachable(2, TwoRun(User))
  {
    assert ValidRun(InitSys(2), []) && Run(InitSys(2), []) == InitSys(2);
    FirstDispatch();
    DispatchedReachable(2, InitSys(2), 0);
    ReachableNext(2, OneRuns(false), Make(0));
    OneMakes();
    SectionReachable(2, Next(OneRuns(false), Make(0)), 0, Create);
    SecondDispatch();
    DispatchedReachable(2, OneRuns(true), 1);
  }

  /** A run on two CPUs after which thread 0 waits forever for thread 1, which is over. */
  lemma JoinCanBeLost()
    ensures exists s :: Reachable(2, s) && Lost(s, 0, 1)
  {
    TwoRunReachable();
    SectionReachable(2, TwoRun(User), 1, Finish);
    var s := TwoRun(Finishing);
    assert Section(TwoRun(User), 1, Finish) == s;
    var t := Next(s, Enter(0, Join(1)));
    ReachableNext(2, s, Enter(0, Join(1)));
    ReachableNext(2, t, Act(0));
    JoinTooLate(2, t, 0, 1);
    assert Lost(Next(t, Act(0)), 0, 1);
  }
}
