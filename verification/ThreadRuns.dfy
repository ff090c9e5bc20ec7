/** What holds in every run of the thread library. */
module ThreadRuns {
  import opened Prelude
  import opened Threads
  import opened ThreadMutexes
  import L = ThreadLife
  import J = ThreadJoins

  ghost predicate Inv(s: Sys) {
    GuardOk(s) && Places(s, None) && Mutexes(s) && L.Lives(s) && J.Joins(s)
  }

  lemma InitInv(n: nat)
    ensures Inv(InitSys(n))
  {
    var s := InitSys(n);
    assert ThreadOk(s, 0, None);
    assert L.LifeOk(s, 0) && J.JoinOk(s, 0);
    assert L.Unreclaimed(s) == {0} && L.Makers(s) == {};
    forall m: nat ensures MutexOk(s, m) {}
    forall w ensures QueueOk(s, w) {}
  }

  lemma StepInv(s: Sys, st: Step)
    requires Inv(s) && Enabled(s, st)
    ensures Inv(Next(s, st))
  {
    StepGuard(s, st);
    StepPlaces(s, st);
    StepMutexes(s, st);
    L.StepLives(s, st);
    J.StepJoins(s, st);
  }

  lemma {:induction false} RunInv(s: Sys, steps: seq<Step>)
    requires Inv(s) && ValidRun(s, steps)
    ensures Inv(Run(s, steps))
    decreases |steps|
  {
    if steps != [] {
      StepInv(s, steps[0]);
      RunInv(Next(s, steps[0]), steps[1..]);
    }
  }

  /** The states of runs on `n` CPUs. */
  ghost predicate Reachable(n: nat, s: Sys) {
    exists steps :: ValidRun(InitSys(n), steps) && s == Run(InitSys(n), steps)
  }

  lemma ReachableInv(n: nat, s: Sys)
    requires Reachable(n, s)
    ensures Inv(s) && |s.cpus| == n
  {
    var steps :| ValidRun(InitSys(n), steps) && s == Run(InitSys(n), steps);
    InitInv(n);
    RunInv(InitSys(n), steps);
    RunCpus(InitSys(n), steps);
  }

  lemma {:induction false} RunOneMore(s: Sys, steps: seq<Step>, st: Step)
    requires ValidRun(s, steps) && Enabled(Run(s, steps), st)
    ensures ValidRun(s, steps + [st]) && Run(s, steps + [st]) == Next(Run(s, steps), st)
    decreases |steps|
  {
    if steps == [] {
      assert (steps + [st])[1..] == [];
    } else {
      RunOneMore(Next(s, steps[0]), steps[1..], st);
      assert (steps + [st])[1..] == steps[1..] + [st];
    }
  }

  lemma ReachableNext(n: nat, s: Sys, st: Step)
    requires Reachable(n, s) && Enabled(s, st)
    ensures Reachable(n, Next(s, st))
  {
    var steps :| ValidRun(InitSys(n), steps) && s == Run(InitSys(n), steps);
    RunOneMore(InitSys(n), steps, st);
  }

  lemma StepCpus(s: Sys, st: Step)
    requires Enabled(s, st)
    ensures |Next(s, st).cpus| == |s.cpus|
  {
    if st.Act? { ActMoved(s, st.c, SeatOf(s, st.c), OpOf(s, st.c)); }
    if st.Land? { LandMoved(s, st.c); }
    if st.Continue? { ResumeMoved(s, st.c); }
  }

  lemma {:induction false} RunCpus(s: Sys, steps: seq<Step>)
    requires ValidRun(s, steps)
    ensures |Run(s, steps).cpus| == |s.cpus|
    decreases |steps|
  {
    if steps != [] {
      StepCpus(s, steps[0]);
      RunCpus(Next(s, steps[0]), steps[1..]);
    }
  }

  // ----- the guard, as the machine has it; `SectionCode` has it for the code -----

  function Count(steps: seq<Step>, enter: bool): nat {
    if steps == [] then 0
    else (if (if enter then steps[0].Enter? else steps[0].Leave?) then 1 else 0) + Count(steps[1..], enter)
  }

  /** Whoever acts inside a section, switches, lands or leaves holds the guard, so no two CPUs do. */
  lemma GuardDiscipline(n: nat, s: Sys, st: Step)
    requires Reachable(n, s) && Enabled(s, st) && (st.Act? || st.Land? || st.Continue? || st.Leave?)
    ensures s.guard == Some(st.c)
    ensures forall d: nat | d < |s.cpus| && d != st.c :: s.cpus[d].phase.Out?
  {
    ReachableInv(n, s);
  }

  /** Every acquisition of the guard is matched by one release, even across switches. */
  lemma {:induction false} GuardBalance(s: Sys, steps: seq<Step>)
    requires Inv(s) && ValidRun(s, steps)
    ensures Count(steps, true) + (if s.guard.Some? then 1 else 0)
         == Count(steps, false) + (if Run(s, steps).guard.Some? then 1 else 0)
    decreases |steps|
  {
    if steps != [] {
      var st := steps[0];
      StepInv(s, st);
      StepGuard(s, st);
      LeaveHolds(s, st);
      GuardBalance(Next(s, st), steps[1..]);
    }
  }

  lemma LeaveHolds(s: Sys, st: Step)
    requires GuardOk(s) && Enabled(s, st)
    ensures st.Leave? ==> s.guard.Some?
    ensures st.Enter? ==> s.guard.None?
  {
  }

  /** At most `k` steps of CPU `c`, each of them enabled, give the guard back. */
  ghost predicate Frees(s: Sys, c: nat, k: nat)
    decreases k
  {
    s.guard.None? || (k > 0 && exists st: Step :: st.c == c && Enabled(s, st) && Frees(Next(s, st), c, k - 1))
  }

  /** A CPU that holds the guard can always go on, and gives it back after at most four steps. */
  lemma GuardReleased(n: nat, s: Sys, c: nat)
    requires Reachable(n, s) && s.guard == Some(c)
    ensures Frees(s, c, 4)
  {
    ReachableInv(n, s);
    if s.cpus[c].phase.Inside? {
      ActMoved(s, c, SeatOf(s, c), OpOf(s, c));
      LandedFrees(Next(s, Act(c)), c);
      assert Enabled(s, Act(c)) && Act(c).c == c;
    } else {
      LandedFrees(s, c);
      FreesMore(s, c, 3);
    }
  }

  lemma LandedFrees(s: Sys, c: nat)
    requires c < |s.cpus| && (Arriving(s.cpus[c].phase) || s.cpus[c].phase.Leaving?)
    ensures Frees(s, c, 3)
  {
    if s.cpus[c].phase.Landing? {
      LandMoved(s, c);
      ResumedFrees(Next(s, Land(c)), c);
      assert Enabled(s, Land(c)) && Land(c).c == c;
    } else {
      ResumedFrees(s, c);
      FreesMore(s, c, 2);
    }
  }

  lemma ResumedFrees(s: Sys, c: nat)
    requires c < |s.cpus| && (s.cpus[c].phase.Resuming? || s.cpus[c].phase.Leaving?)
    ensures Frees(s, c, 2)
  {
    if s.cpus[c].phase.Resuming? {
      ResumeMoved(s, c);
      var t := Next(s, Continue(c));
      assert Enabled(t, Leave(c)) && Leave(c).c == c && Frees(Next(t, Leave(c)), c, 0);
      assert Enabled(s, Continue(c)) && Continue(c).c == c && Frees(t, c, 1);
    } else {
      assert Enabled(s, Leave(c)) && Leave(c).c == c && Frees(Next(s, Leave(c)), c, 1);
    }
  }

  lemma {:induction false} FreesMore(s: Sys, c: nat, k: nat)
    requires Frees(s, c, k)
    ensures Frees(s, c, k + 1)
    decreases k
  {
    if s.guard.Some? {
      var st: Step :| st.c == c && Enabled(s, st) && Frees(Next(s, st), c, k - 1);
      FreesMore(Next(s, st), c, k - 1);
    }
  }

  /** When the scheduling loop runs the thread handler a second time, outside the guard, there is nothing
      for it to do. */
  lemma SecondHandlerIdle(n: nat, s: Sys, c: nat)
    requires Reachable(n, s) && c < |s.cpus| && s.cpus[c].seat.None? && s.cpus[c].phase.Out?
    ensures Reclaim(s, c) == s
  {
    ReachableInv(n, s);
    L.NoGarbage(s, c);
  }

  // ----- the mutex -----

  /** At most one thread holds a mutex, and the fields say which one; the lock is marked in use without an
      owner exactly while one woken waiter is on its way to take it; and waiters mean it is in use. */
  lemma HandOff(n: nat, s: Sys, m: nat)
    requires Reachable(n, s)
    ensures forall x: nat :: x in M(s, m).holders <==> M(s, m).locked && M(s, m).owner == x + 1
    ensures M(s, m).locked && M(s, m).owner == 0 <==> exists x: nat :: Pending(s, x, m)
    ensures forall x: nat, y: nat :: Pending(s, x, m) && Pending(s, y, m) ==> x == y
    ensures Q(s, OnMutex(m)) != [] ==> M(s, m).locked
  {
    ReachableInv(n, s);
    assert MutexOk(s, m);
    if M(s, m).grantee.Some? { assert Pending(s, M(s, m).grantee.value, m); }
  }

  /** Threads get the mutex in the order in which they came for it, and those still to get it are the
      woken one and then the queue. */
  lemma NoBarging(n: nat, s: Sys, m: nat)
    requires Reachable(n, s)
    ensures M(s, m).acquired <= M(s, m).arrivals
    ensures M(s, m).arrivals[|M(s, m).acquired|..] == Opt(M(s, m).grantee) + Q(s, OnMutex(m))
  {
    ReachableInv(n, s);
    assert MutexOk(s, m);
    var v := M(s, m);
    assert v.arrivals == v.acquired + (Opt(v.grantee) + Q(s, OnMutex(m)));
  }

  /** Unlocking is refused exactly when somebody else, or nobody, holds the mutex; and then changes nothing. */
  lemma UnlockRefused(n: nat, s: Sys, c: nat, m: nat)
    requires Reachable(n, s) && c < |s.cpus| && s.cpus[c].phase == Inside(Unlock(m)) && s.cpus[c].seat.Some?
    ensures Next(s, Act(c)) == SetPhase(s, c, Leaving) <==> SeatOf(s, c) !in M(s, m).holders
  {
    ReachableInv(n, s);
    assert MutexOk(s, m);
    if M(s, m).owner == SeatOf(s, c) + 1 { ReleaseChanges(s, c, SeatOf(s, c), m); }
  }

  /** Unlocking frees the mutex, or hands it to the oldest waiter, who joins the end of the ready queue. */
  lemma UnlockHandsOver(n: nat, s: Sys, c: nat, m: nat, t: Sys)
    requires Reachable(n, s) && c < |s.cpus| && s.cpus[c].phase == Inside(Unlock(m)) && s.cpus[c].seat.Some?
    requires SeatOf(s, c) in M(s, m).holders && t == Next(s, Act(c))
    ensures M(t, m).holders == {} && (M(t, m).locked <==> Q(s, OnMutex(m)) != [])
    ensures if Q(s, OnMutex(m)) == [] then t.ready == s.ready
            else t.ready == s.ready + [Q(s, OnMutex(m))[0]] && Q(t, OnMutex(m)) == Q(s, OnMutex(m))[1..]
                 && Pending(t, Q(s, OnMutex(m))[0], m)
  {
    ReachableInv(n, s);
    StepInv(s, Act(c));
    var x := SeatOf(s, c);
    assert MutexOk(s, m) && MutexOk(t, m);
    ReleaseFields(SetPhase(s, c, Leaving), m, x);
  }

  lemma ReleaseFields(s: Sys, m: nat, x: nat)
    ensures var t, q := Release(s, m, x), Q(s, OnMutex(m));
            && M(t, m).owner == 0 && (M(t, m).locked <==> q != [])
            && (if q == [] then t.ready == s.ready
                else t.ready == s.ready + [q[0]] && Q(t, OnMutex(m)) == q[1..] && M(t, m).grantee == Some(q[0]))
  {
  }

  lemma ReleaseChanges(s: Sys, c: nat, x: nat, m: nat)
    requires M(s, m).owner == x + 1
    ensures M(ActUnlock(s, c, x, m), m).owner == 0
  {
  }

  // ----- places -----

  datatype Place = CpuSeat(c: nat) | ReadySlot(i: nat) | WaitSlot(w: Wid, i: nat)

  ghost predicate Occupies(s: Sys, x: nat, p: Place) {
    match p
    case CpuSeat(c) => Seated(s, c, x)
    case ReadySlot(i) => i < |s.ready| && s.ready[i] == x
    case WaitSlot(w, i) => i < |Q(s, w)| && Q(s, w)[i] == x
  }

  /** A thread is in exactly one place until it is over, and then in none. */
  lemma ExactlyOnePlace(n: nat, s: Sys, x: nat)
    requires Reachable(n, s) && x < |s.threads|
    ensures forall p, q :: Occupies(s, x, p) && Occupies(s, x, q) ==> p == q
    ensures (exists p :: Occupies(s, x, p)) <==> !s.threads[x].loc.Over?
  {
    ReachableInv(n, s);
    assert ThreadOk(s, x, None);
    forall p | Occupies(s, x, p) ensures s.threads[x].loc == LocOf(p) { OccupiesLoc(s, x, p); }
    forall p, q | Occupies(s, x, p) && Occupies(s, x, q) ensures p == q { OccupiesOnce(s, x, p, q); }
    match s.threads[x].loc {
      case OnCpu(c) => assert Occupies(s, x, CpuSeat(c));
      case InReady =>
        var i: nat :| i < |s.ready| && s.ready[i] == x;
        assert Occupies(s, x, ReadySlot(i));
      case InQueue(w) =>
        var i: nat :| i < |Q(s, w)| && Q(s, w)[i] == x;
        assert Occupies(s, x, WaitSlot(w, i));
      case Over(_) =>
    }
  }

  function LocOf(p: Place): Loc {
    match p
    case CpuSeat(c) => OnCpu(c)
    case ReadySlot(_) => InReady
    case WaitSlot(w, _) => InQueue(w)
  }

  lemma OccupiesLoc(s: Sys, x: nat, p: Place)
    requires Places(s, None) && Occupies(s, x, p)
    ensures At(s, x, LocOf(p))
  {
    match p {
      case CpuSeat(c) => assert SeatOk(s, c);
      case ReadySlot(i) =>
      case WaitSlot(w, i) => assert QueueOk(s, w);
    }
  }

  lemma OccupiesOnce(s: Sys, x: nat, p: Place, q: Place)
    requires Places(s, None) && Occupies(s, x, p) && Occupies(s, x, q)
    ensures p == q
  {
    OccupiesLoc(s, x, p);
    OccupiesLoc(s, x, q);
    if p.WaitSlot? { assert QueueOk(s, p.w); }
  }

  // ----- the life of a thread -----

  /** The counters agree: stacks in use are those of unreclaimed threads and those of constructors that
      have not got further yet, and the pool never runs over when a stack comes back. */
  lemma StacksConserved(n: nat, s: Sys)
    requires Reachable(n, s)
    ensures s.total == |L.Unreclaimed(s)| && s.out == s.total + |L.Makers(s)| && s.out <= STACKS
    ensures forall c: nat | c < |s.cpus| && s.cpus[c].phase.Landing? && s.cpus[c].garbage.Some? ::
              s.out > 0 && s.total > 0
  {
    ReachableInv(n, s);
    forall c: nat | c < |s.cpus| && s.cpus[c].phase.Landing? && s.cpus[c].garbage.Some?
      ensures s.out > 0 && s.total > 0
    {
      L.ReclaimLives(s, c);
    }
  }

  /** A thread is reclaimed in one step, by the next context on the CPU it has left, and that CPU is not
      running on its stack any more. */
  lemma ReclaimedOnce(n: nat, s: Sys, st: Step, g: nat)
    requires Reachable(n, s) && Enabled(s, st) && g < |s.threads|
    ensures g < |Next(s, st).threads|
    ensures Next(s, st).threads[g].reclaimed <==>
            s.threads[g].reclaimed
            || (st.Land? && s.cpus[st.c].garbage == Some(g) && At(s, g, Over(st.c)) && !Seated(s, st.c, g))
  {
    ReachableInv(n, s);
    StepReclaims(s, st, g);
  }

  lemma StepReclaims(s: Sys, st: Step, g: nat)
    requires Inv(s) && Enabled(s, st) && g < |s.threads|
    ensures g < |Next(s, st).threads|
    ensures Next(s, st).threads[g].reclaimed <==>
            s.threads[g].reclaimed
            || (st.Land? && s.cpus[st.c].garbage == Some(g) && At(s, g, Over(st.c)) && !Seated(s, st.c, g))
  {
    if st.Land? {
      L.ReclaimLives(s, st.c);
      assert SeatOk(s, st.c);
    } else if st.Continue? {
      var r := SetPhase(s, st.c, Leaving);
      if s.cpus[st.c].seat.Some? && SeatOf(s, st.c) < |r.threads| { ResumeKeeps(r, SeatOf(s, st.c)); }
    } else if st.Act? {
      ActReclaims(s, st.c, g);
    }
  }

  lemma ActReclaims(s: Sys, c: nat, g: nat)
    requires Inv(s) && c < |s.cpus| && s.cpus[c].phase.Inside? && g < |s.threads|
    ensures g < |Next(s, Act(c)).threads| && Next(s, Act(c)).threads[g].reclaimed == s.threads[g].reclaimed
  {
    assert SeatOk(s, c);
    var op := s.cpus[c].phase.op;
    if s.cpus[c].seat.None? {
      J.SwitchReclaimed(s, c, g);
    } else if op.Create? {
    } else if op.Quit? {
      OnCpuNow(s, c);
      J.SwitchReclaimed(SetLoc(s, SeatOf(s, c), Over(c)), c, g);
    } else {
      L.ActKept(s, c);
      assert L.KeptAt(s.threads[g], Next(s, Act(c)).threads[g]);
    }
  }

  /** A thread that is over is reclaimed, unless its CPU has not landed on its next context yet. */
  lemma DeadReclaimed(n: nat, s: Sys, x: nat)
    requires Reachable(n, s) && x < |s.threads| && s.threads[x].loc.Over?
    ensures s.threads[x].loc.c < |s.cpus|
    ensures s.threads[x].reclaimed || s.cpus[s.threads[x].loc.c].phase.Landing?
  {
    ReachableInv(n, s);
    assert L.LifeOk(s, x) && ThreadOk(s, x, None);
    assert L.GarbageOk(s, s.threads[x].loc.c);
  }

  /** The object shared by a thread and its handle is freed once, when both have let go of it; and it says
      dead exactly from the thread's marking on. */
  lemma SharedFreedOnce(n: nat, s: Sys, x: nat)
    requires Reachable(n, s) && x < |s.threads|
    ensures var h := s.threads[x].shared;
            && h.frees == (if h.byStack || h.byThread then 0 else 1)
            && (h.val <==> s.threads[x].pc.Marked?) && (h.val <==> !h.byStack)
  {
    ReachableInv(n, s);
    assert L.LifeOk(s, x);
  }

  // ----- joining -----

  /** A joiner leaves its queue only after the joined thread's function is over. */
  lemma JoinerAfterExit(n: nat, s: Sys, x: nat, t: nat)
    requires Reachable(n, s) && Is(s, x, AtJoin(t)) && !s.threads[x].loc.InQueue?
    ensures J.Ended(s, t)
  {
    ReachableInv(n, s);
    assert J.JoinOk(s, x);
  }

  /** With one CPU, a joiner is parked exactly as long as the joined thread has not ended. */
  lemma JoinExact(s: Sys, x: nat, t: nat)
    requires Reachable(1, s) && Is(s, x, AtJoin(t))
    ensures J.Joining(s, x, t) <==> !J.Ended(s, t)
  {
    ReachableInv(1, s);
    assert J.JoinOk(s, x);
  }
}
