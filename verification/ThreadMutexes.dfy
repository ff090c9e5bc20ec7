/** The invariant of the mutexes: who waits, who was handed the lock, who holds it, and in which order. */
module ThreadMutexes {
  import opened Prelude
  import opened Threads

  function Opt(x: Option<nat>): seq<nat> {
    if x.Some? then [x.value] else []
  }

  /** Context `x` was woken to take mutex `m` and has not run yet. */
  predicate Pending(s: Sys, x: nat, m: nat) {
    Is(s, x, AtLock(m)) && !s.threads[x].loc.InQueue?
  }

  ghost predicate MutexOk(s: Sys, m: nat) {
    var v := M(s, m);
    && v.arrivals == v.acquired + Opt(v.grantee) + Q(s, OnMutex(m))
    && (v.locked && v.owner == 0 <==> v.grantee.Some?)
    && (!v.locked ==> v.owner == 0 && Q(s, OnMutex(m)) == [])
    && v.holders == (if v.owner == 0 then {} else {v.owner - 1})
    && (forall x: nat :: Pending(s, x, m) <==> v.grantee == Some(x))
  }

  ghost predicate Mutexes(s: Sys) {
    forall m: nat :: MutexOk(s, m)
  }

  /** Nothing about mutex `m` changes. */
  ghost predicate Quiet(s: Sys, t: Sys, m: nat) {
    && M(t, m) == M(s, m) && Q(t, OnMutex(m)) == Q(s, OnMutex(m))
    && forall x: nat :: Pending(t, x, m) <==> Pending(s, x, m)
  }

  lemma QuietMutexes(s: Sys, t: Sys)
    requires Mutexes(s) && forall m: nat :: Quiet(s, t, m)
    ensures Mutexes(t)
  {
    forall m: nat ensures MutexOk(t, m) {
      assert MutexOk(s, m) && Quiet(s, t, m);
    }
  }

  lemma QuietTwice(s: Sys, t: Sys, u: Sys, m: nat)
    requires Quiet(s, t, m) && Quiet(t, u, m)
    ensures Quiet(s, u, m)
  {
  }

  // ----- changes that leave every mutex alone -----

  lemma SwitchQuiet(s: Sys, c: nat, m: nat)
    requires OnList(s, s.ready, InReady)
    ensures Quiet(s, Switch(s, c), m)
  {
  }

  lemma WakeOneQuiet(s: Sys, w: Wid, m: nat)
    requires Places(s, None) && w != OnMutex(m)
    ensures Quiet(s, WakeOne(s, w), m)
  {
    assert QueueOk(s, w);
    if Q(s, w) != [] {
      assert At(s, Q(s, w)[0], InQueue(w));
      assert ThreadOk(s, Q(s, w)[0], None);
    }
  }

  lemma {:induction false} WakeAllQuiet(s: Sys, w: Wid, m: nat)
    requires Places(s, None) && !w.OnMutex?
    ensures Quiet(s, WakeAll(s, w), m)
    decreases |Q(s, w)|
  {
    if Q(s, w) != [] {
      WakeOnePlaces(s, w, None);
      WakeOneQuiet(s, w, m);
      WakeAllQuiet(WakeOne(s, w), w, m);
    }
  }

  /** A running context parks somewhere else than in the queue of a mutex. */
  lemma ParkQuiet(s: Sys, x: nat, pc: Pc, loc: Loc, m: nat)
    requires x < |s.threads| && !s.threads[x].pc.AtLock? && (!pc.AtLock? || loc.InQueue?)
    ensures Quiet(s, Put(s, x, pc, loc), m)
  {
  }

  lemma WaitSelfQuiet(s: Sys, c: nat, x: nat, w: Wid, pc: Pc, m: nat)
    requires Places(s, None) && Seated(s, c, x) && x < |s.threads| && !s.threads[x].pc.AtLock?
    requires Fits(w, pc) && w != OnMutex(m)
    ensures Quiet(s, WaitSelf(s, c, x, w, pc), m)
  {
    EnqueuePlaces(s, c, x, w, pc);
    ParkQuiet(s, x, pc, InQueue(w), m);
    SwitchQuiet(Enqueue(s, x, w, pc), c, m);
    QuietTwice(s, Enqueue(s, x, w, pc), WaitSelf(s, c, x, w, pc), m);
  }

  // ----- the operations of one mutex -----

  /** Blocking on a mutex in use. */
  lemma BlockOk(s: Sys, c: nat, x: nat, m: nat)
    requires Places(s, None) && Seated(s, c, x) && x < |s.threads| && !s.threads[x].pc.AtLock?
    requires MutexOk(s, m) && M(s, m).locked
    ensures MutexOk(WaitSelf(Arrive(s, m, x), c, x, OnMutex(m), AtLock(m)), m)
  {
    var t := Arrive(s, m, x);
    MutexPlaces(s, t, None);
    EnqueuePlaces(t, c, x, OnMutex(m), AtLock(m));
    var u := Enqueue(t, x, OnMutex(m), AtLock(m));
    assert Q(u, OnMutex(m)) == Q(s, OnMutex(m)) + [x];
    assert forall y: nat :: Pending(u, y, m) <==> Pending(s, y, m);
    assert MutexOk(u, m);
    SwitchQuiet(u, c, m);
  }

  lemma AcquireOk(s: Sys, x: nat, m: nat)
    requires MutexOk(s, m) && x < |s.threads|
    requires M(s, m).grantee == Some(x) || (!M(s, m).locked && !s.threads[x].pc.AtLock?)
    ensures var t := if M(s, m).locked then s else Arrive(s, m, x); MutexOk(Acquire(t, m, x), m)
  {
    var t := if M(s, m).locked then s else Arrive(s, m, x);
    var u := Acquire(t, m, x);
    forall y: nat ensures Pending(u, y, m) <==> false {
      assert Pending(s, y, m) <==> M(s, m).grantee == Some(y);
    }
  }

  lemma AcquireQuiet(s: Sys, x: nat, m: nat, k: nat)
    requires x < |s.threads| && k != m && (s.threads[x].pc == AtLock(m) || !s.threads[x].pc.AtLock?)
    ensures Quiet(s, Acquire(s, m, x), k)
  {
  }

  lemma ReleaseOk(s: Sys, m: nat, x: nat)
    requires Places(s, None) && MutexOk(s, m) && M(s, m).owner == x + 1
    ensures MutexOk(Release(s, m, x), m)
  {
    var q := Q(s, OnMutex(m));
    var t := Release(s, m, x);
    assert QueueOk(s, OnMutex(m));
    if q != [] {
      assert At(s, q[0], InQueue(OnMutex(m)));
      assert ThreadOk(s, q[0], None);
      assert q == [q[0]] + q[1..];
    }
    forall y: nat ensures Pending(t, y, m) <==> M(t, m).grantee == Some(y) {
      assert Pending(s, y, m) <==> M(s, m).grantee == Some(y);
    }
  }

  lemma ReleaseQuiet(s: Sys, m: nat, x: nat, k: nat)
    requires Places(s, None) && k != m
    ensures Quiet(s, Release(s, m, x), k)
  {
    var q := Q(s, OnMutex(m));
    assert QueueOk(s, OnMutex(m));
    if q != [] {
      assert At(s, q[0], InQueue(OnMutex(m)));
      assert ThreadOk(s, q[0], None);
    }
  }

  // ----- steps -----

  lemma ActLockMutexes(s: Sys, c: nat, x: nat, m: nat)
    requires Places(s, None) && Mutexes(s) && Seated(s, c, x) && s.cpus[c].phase.Inside?
    ensures Mutexes(ActLock(s, c, x, m))
  {
    OnCpuNow(s, c);
    var t := Arrive(s, m, x);
    MutexPlaces(s, t, None);
    forall k: nat ensures MutexOk(ActLock(s, c, x, m), k) {
      assert MutexOk(s, k) && MutexOk(s, m);
      if M(s, m).locked {
        if k == m { BlockOk(s, c, x, m); } else { WaitSelfQuiet(t, c, x, OnMutex(m), AtLock(m), k); }
      } else {
        var u := SetPhase(s, c, Leaving);
        assert SetPhase(t, c, Leaving) == Arrive(u, m, x);
        assert MutexOk(u, m);
        assert k != m ==> Quiet(s, Arrive(u, m, x), k);
        if k == m { AcquireOk(u, x, m); } else { AcquireQuiet(Arrive(u, m, x), x, m, k); }
      }
    }
  }

  lemma ActUnlockMutexes(s: Sys, c: nat, x: nat, m: nat)
    requires Places(s, None) && Mutexes(s) && Seated(s, c, x) && s.cpus[c].phase.Inside?
    ensures Mutexes(ActUnlock(s, c, x, m))
  {
    LeavingPlaces(s, c, x);
    var t := SetPhase(s, c, Leaving);
    forall k: nat ensures MutexOk(ActUnlock(s, c, x, m), k) {
      assert MutexOk(s, k) && Quiet(s, t, k);
      assert MutexOk(t, k);
      if M(s, m).owner == x + 1 {
        if k == m { ReleaseOk(t, m, x); } else { ReleaseQuiet(t, m, x, k); }
      }
    }
  }

  lemma ActWaitMutexes(s: Sys, c: nat, x: nat, v: nat, m: nat)
    requires Places(s, None) && Mutexes(s) && Seated(s, c, x) && s.cpus[c].phase.Inside?
    ensures Mutexes(ActWait(s, c, x, v, m))
  {
    OnCpuNow(s, c);
    var r := Release(s, m, x);
    if M(s, m).owner == x + 1 {
      ReleasePlaces(s, m, x);
      ReleaseRuns(s, c, m, x);
      forall k: nat ensures MutexOk(ActWait(s, c, x, v, m), k) {
        assert MutexOk(s, k);
        if k == m { ReleaseOk(s, m, x); } else { ReleaseQuiet(s, m, x, k); }
        WaitSelfQuiet(r, c, x, OnCv(v), AtWait(v, m), k);
      }
    } else {
      forall k: nat ensures Quiet(s, SetPhase(s, c, Leaving), k) {}
      QuietMutexes(s, SetPhase(s, c, Leaving));
    }
  }

  /** The thread that releases is not one of those it wakes. */
  lemma ReleaseRuns(s: Sys, c: nat, m: nat, x: nat)
    requires Places(s, None) && Seated(s, c, x)
    ensures Seated(Release(s, m, x), c, x) && x < |Release(s, m, x).threads| == |s.threads|
    ensures Release(s, m, x).threads[x] == s.threads[x]
  {
    OnCpuNow(s, c);
    assert QueueOk(s, OnMutex(m));
    if Q(s, OnMutex(m)) != [] { assert At(s, Q(s, OnMutex(m))[0], InQueue(OnMutex(m))); }
  }

  lemma ActMutexes(s: Sys, c: nat)
    requires Places(s, None) && Mutexes(s) && c < |s.cpus| && s.cpus[c].phase.Inside? && s.cpus[c].seat.Some?
    ensures Mutexes(AfterAct(s, c, SeatOf(s, c), s.cpus[c].phase.op))
  {
    OnCpuNow(s, c);
    var x := SeatOf(s, c);
    var op := s.cpus[c].phase.op;
    if op.Lock? {
      ActLockMutexes(s, c, x, op.m);
    } else if op.Unlock? {
      ActUnlockMutexes(s, c, x, op.m);
    } else if op.Wait? {
      ActWaitMutexes(s, c, x, op.c, op.m);
    } else {
      forall k: nat ensures Quiet(s, AfterAct(s, c, x, op), k) { ActQuiet(s, c, x, op, k); }
      QuietMutexes(s, AfterAct(s, c, x, op));
    }
  }

  lemma ActQuiet(s: Sys, c: nat, x: nat, op: Op, k: nat)
    requires Places(s, None) && Seated(s, c, x) && s.cpus[c].phase.Inside? && op == s.cpus[c].phase.op
    requires !op.Lock? && !op.Unlock? && !op.Wait?
    ensures Quiet(s, AfterAct(s, c, x, op), k)
  {
    OnCpuNow(s, c);
    LeavingPlaces(s, c, x);
    var t := SetPhase(s, c, Leaving);
    match op {
      case Signal(v) => WakeOneQuiet(t, OnCv(v), k);
      case Broadcast(v) => WakeAllQuiet(t, OnCv(v), k);
      case Join(y) => WaitSelfQuiet(s, c, x, OnExit(y), AtJoin(y), k);
      case Yield =>
        var u := PutInReady(SetPc(s, x, AtYield), x);
        YieldPlaces(s, c, x);
        ParkQuiet(s, x, AtYield, InReady, k);
        assert Quiet(s, u, k);
        SwitchQuiet(u, c, k);
      case Create => CreateQuiet(s, c, x, k);
      case Finish =>
        WakeAllQuiet(t, OnExit(x), k);
        FinishQuiet(s, c, x, k);
      case Quit =>
        QuitPlaces(s, c, x);
        ParkQuiet(s, x, Marked, Over(c), k);
        SwitchQuiet(SetLoc(s, x, Over(c)), c, k);
      case Dispatch => SwitchQuiet(s, c, k);
      case _ =>
    }
  }

  lemma CreateQuiet(s: Sys, c: nat, x: nat, k: nat)
    requires x < |s.threads| && !s.threads[x].pc.AtLock?
    ensures Quiet(s, ActCreate(s, c, x), k)
  {
  }

  lemma FinishQuiet(s: Sys, c: nat, x: nat, k: nat)
    requires x < |s.threads| && !s.threads[x].pc.AtLock?
    requires Quiet(s, WakeAll(SetPhase(s, c, Leaving), OnExit(x)), k)
    ensures Quiet(s, ActFinish(s, c, x), k)
  {
    var u := WakeAll(SetPhase(s, c, Leaving), OnExit(x));
    WakeAllKeeps(SetPhase(s, c, Leaving), OnExit(x));
    ParkQuiet(u, x, Finishing, u.threads[x].loc, k);
  }

  lemma LandMutexes(s: Sys, c: nat)
    requires Places(s, None) && Mutexes(s) && c < |s.cpus| && s.cpus[c].phase.Landing?
    ensures Mutexes(AfterLand(s, c))
  {
    ReclaimThreads(s, c);
    forall k: nat ensures Quiet(s, AfterLand(s, c), k) {}
    QuietMutexes(s, AfterLand(s, c));
  }

  lemma ContinueMutexes(s: Sys, c: nat)
    requires Places(s, None) && Mutexes(s) && c < |s.cpus| && s.cpus[c].phase.Resuming?
    ensures Mutexes(AfterResume(s, c))
  {
    var t := SetPhase(s, c, Leaving);
    forall k: nat ensures Quiet(s, t, k) {}
    QuietMutexes(s, t);
    if s.cpus[c].seat.Some? {
      OnCpuNow(s, c);
      var x := SeatOf(s, c);
      forall k: nat ensures MutexOk(AfterResume(s, c), k) {
        assert MutexOk(t, k);
        ResumeOk(t, x, k);
      }
    }
  }

  lemma ResumeOk(s: Sys, x: nat, k: nat)
    requires MutexOk(s, k) && x < |s.threads| && !s.threads[x].loc.InQueue?
    ensures MutexOk(Resume(s, x), k)
  {
    match s.threads[x].pc {
      case AtLock(m) =>
        if k == m {
          assert Pending(s, x, m);
          AcquireOk(s, x, m);
        } else {
          AcquireQuiet(s, x, m, k);
        }
      case AtWait(_, m) => ParkQuiet(s, x, Relock(m), s.threads[x].loc, k);
      case _ => ParkQuiet(s, x, User, s.threads[x].loc, k);
    }
  }

  lemma OtherMutexes(s: Sys, st: Step)
    requires Places(s, None) && Mutexes(s) && Enabled(s, st) && !st.Act? && !st.Land? && !st.Continue?
    ensures Mutexes(Next(s, st))
  {
    if s.cpus[st.c].seat.Some? { OnCpuNow(s, st.c); }
    forall k: nat ensures Quiet(s, Next(s, st), k) {}
    QuietMutexes(s, Next(s, st));
  }

  lemma StepMutexes(s: Sys, st: Step)
    requires Places(s, None) && Mutexes(s) && Enabled(s, st)
    ensures Mutexes(Next(s, st))
  {
    if st.Act? {
      assert SeatOk(s, st.c);
      if s.cpus[st.c].seat.Some? {
        ActMutexes(s, st.c);
      } else {
        forall k: nat ensures Quiet(s, Next(s, st), k) { SwitchQuiet(s, st.c, k); }
        QuietMutexes(s, Next(s, st));
      }
    } else if st.Land? {
      LandMutexes(s, st.c);
    } else if st.Continue? {
      ContinueMutexes(s, st.c);
    } else {
      OtherMutexes(s, st);
    }
  }
}
