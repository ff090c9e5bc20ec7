/**
 The life of threads: a dead thread is the garbage of the CPU it left until the next context there
 reclaims it, stacks and thread counts agree, and the shared object is freed once.
 */
module ThreadLife {
  import opened Prelude
  import opened Threads

  ghost predicate GarbageOk(s: Sys, c: nat)
    requires c < |s.cpus|
  {
    s.cpus[c].garbage.Some? ==>
      var g := s.cpus[c].garbage.value;
      && Is(s, g, Marked) && !s.threads[g].reclaimed
      && (At(s, g, OnCpu(c)) || (At(s, g, Over(c)) && s.cpus[c].phase.Landing?))
  }

  ghost predicate LifeOk(s: Sys, x: nat)
    requires x < |s.threads|
  {
    var t := s.threads[x];
    && (t.reclaimed ==> t.loc.Over?)
    && (t.pc.Marked? && t.loc.OnCpu? ==> t.loc.c < |s.cpus| && s.cpus[t.loc.c].garbage == Some(x))
    && (t.loc.Over? && !t.reclaimed ==> t.loc.c < |s.cpus| && s.cpus[t.loc.c].garbage == Some(x))
    && SharedOk(t.shared, t.pc)
  }

  predicate SharedOk(h: Shared, pc: Pc) {
    && h.frees == (if h.byStack || h.byThread then 0 else 1)
    && (h.val <==> pc.Marked?) && (h.byStack <==> !pc.Marked?)
  }

  /** Threads that were created and not yet reclaimed. */
  ghost function Unreclaimed(s: Sys): set<nat> {
    set x: nat | x < |s.threads| && !s.threads[x].reclaimed
  }

  /** Threads that took a stack and have not yet created the thread it is for. */
  ghost function Makers(s: Sys): set<nat> {
    set x: nat | x < |s.threads| && s.threads[x].pc.Making?
  }

  ghost predicate Lives(s: Sys) {
    && (forall c: nat | c < |s.cpus| :: GarbageOk(s, c))
    && (forall x: nat | x < |s.threads| :: LifeOk(s, x))
    && s.total == |Unreclaimed(s)| && s.out == s.total + |Makers(s)| && s.out <= STACKS
  }

  // ----- changes that do not touch the life of threads -----

  ghost predicate KeptAt(a: Thread, b: Thread) {
    && b.shared == a.shared && b.reclaimed == a.reclaimed
    && (a.pc.Marked? <==> b.pc.Marked?) && (a.pc.Marked? ==> b.loc == a.loc)
    && (a.pc.Making? <==> b.pc.Making?) && (b.loc.Over? ==> a.loc.Over?)
    && (a.reclaimed ==> b.loc == a.loc)
  }

  ghost predicate Kept(s: Sys, t: Sys) {
    && |t.threads| == |s.threads| && t.total == s.total && t.out == s.out
    && forall y: nat | y < |s.threads| :: KeptAt(s.threads[y], t.threads[y])
  }

  lemma KeptLives(s: Sys, t: Sys)
    requires Lives(s) && Kept(s, t) && |t.cpus| == |s.cpus|
    requires forall c: nat | c < |s.cpus| :: t.cpus[c].garbage == s.cpus[c].garbage
    requires forall c: nat | c < |s.cpus| :: s.cpus[c].phase.Landing? && s.cpus[c].garbage.Some? ==>
               t.cpus[c].phase.Landing?
    requires forall x: nat | x < |s.threads| :: s.threads[x].loc.Over? ==> s.threads[x].pc.Marked?
    ensures Lives(t)
  {
    forall c: nat | c < |t.cpus| ensures GarbageOk(t, c) {
      assert GarbageOk(s, c);
      if s.cpus[c].garbage.Some? {
        assert KeptAt(s.threads[s.cpus[c].garbage.value], t.threads[s.cpus[c].garbage.value]);
      }
    }
    forall x: nat | x < |t.threads| ensures LifeOk(t, x) {
      assert LifeOk(s, x) && KeptAt(s.threads[x], t.threads[x]);
    }
    KeptSets(s, t);
  }

  lemma KeptSets(s: Sys, t: Sys)
    requires Kept(s, t)
    ensures Unreclaimed(t) == Unreclaimed(s) && Makers(t) == Makers(s)
  {
    forall x: nat ensures x in Unreclaimed(t) <==> x in Unreclaimed(s) {
      if x < |s.threads| { assert KeptAt(s.threads[x], t.threads[x]); }
    }
    forall x: nat ensures x in Makers(t) <==> x in Makers(s) {
      if x < |s.threads| { assert KeptAt(s.threads[x], t.threads[x]); }
    }
  }

  lemma KeptTwice(s: Sys, t: Sys, u: Sys)
    requires Kept(s, t) && Kept(t, u)
    ensures Kept(s, u)
  {
    forall y: nat | y < |s.threads| ensures KeptAt(s.threads[y], u.threads[y]) {
      assert KeptAt(s.threads[y], t.threads[y]) && KeptAt(t.threads[y], u.threads[y]);
    }
  }

  lemma SameKept(s: Sys, t: Sys)
    requires t.threads == s.threads && t.total == s.total && t.out == s.out
    ensures Kept(s, t)
  {
  }

  /** Neither reclaimed nor on the way in or out. */
  predicate Busy(t: Thread) {
    !t.pc.Marked? && !t.pc.Making? && !t.loc.Over? && !t.reclaimed
  }

  lemma PutKept(s: Sys, x: nat, pc: Pc, loc: Loc)
    requires x < |s.threads| && Busy(s.threads[x]) && !pc.Marked? && !pc.Making? && !loc.Over?
    ensures Kept(s, Put(s, x, pc, loc))
  {
  }

  lemma ParkedBusy(s: Sys, x: nat, hole: Option<nat>)
    requires Places(s, hole) && Lives(s) && x < |s.threads| && !s.threads[x].loc.OnCpu? && !s.threads[x].loc.Over?
    ensures Busy(s.threads[x])
  {
    assert ThreadOk(s, x, hole) && LifeOk(s, x);
  }

  lemma SwitchKept(s: Sys, c: nat)
    requires OnList(s, s.ready, InReady) && c < |s.cpus|
    requires s.ready != [] ==> At(s, s.ready[0], InReady) && Busy(s.threads[s.ready[0]])
    ensures Kept(s, Switch(s, c))
  {
    if s.ready != [] { PutKept(s, s.ready[0], s.threads[s.ready[0]].pc, OnCpu(c)); }
  }

  lemma WakeOneKept(s: Sys, w: Wid)
    requires Places(s, None) && Lives(s)
    ensures Kept(s, WakeOne(s, w))
  {
    assert QueueOk(s, w);
    if Q(s, w) != [] {
      var x := Q(s, w)[0];
      assert At(s, x, InQueue(w));
      ParkedBusy(s, x, None);
      PutKept(s, x, s.threads[x].pc, InReady);
    }
  }

  lemma WakeAllKept(s: Sys, w: Wid)
    requires Places(s, None) && Lives(s)
    ensures Kept(s, WakeAll(s, w))
  {
    var t := WakeAll(s, w);
    WakeAllKeeps(s, w);
    assert QueueOk(s, w);
    forall y: nat | y < |s.threads| ensures KeptAt(s.threads[y], t.threads[y]) {
      if y in Q(s, w) {
        assert At(s, y, InQueue(w));
        ParkedBusy(s, y, None);
      }
    }
  }

  lemma ReleaseKept(s: Sys, m: nat, x: nat)
    requires Places(s, None) && Lives(s)
    ensures Kept(s, Release(s, m, x))
  {
    assert QueueOk(s, OnMutex(m));
    var q := Q(s, OnMutex(m));
    if q != [] {
      assert At(s, q[0], InQueue(OnMutex(m)));
      ParkedBusy(s, q[0], None);
      PutKept(s, q[0], s.threads[q[0]].pc, InReady);
    }
  }

  lemma SwitchAfter(s: Sys, t: Sys, c: nat)
    requires Lives(s) && Kept(s, t) && Places(t, Some(c)) && c < |t.cpus|
    ensures Kept(s, Switch(t, c))
  {
    if t.ready != [] {
      var y := t.ready[0];
      assert At(t, y, InReady);
      assert ThreadOk(t, y, Some(c)) && LifeOk(s, y) && KeptAt(s.threads[y], t.threads[y]);
    }
    SwitchKept(t, c);
    KeptTwice(s, t, Switch(t, c));
  }

  // ----- sections -----

  /** The current context of a CPU inside a section is running, and neither on its way in or out unless
      that is what the section is about. */
  lemma RunnerBusy(s: Sys, c: nat)
    requires Places(s, None) && Lives(s) && c < |s.cpus| && s.cpus[c].phase.Inside? && s.cpus[c].seat.Some?
    requires !s.cpus[c].phase.op.Create? && !s.cpus[c].phase.op.Quit?
    ensures SeatOf(s, c) < |s.threads| && Busy(s.threads[SeatOf(s, c)]) && !Parked(s.threads[SeatOf(s, c)].pc)
  {
    OnCpuNow(s, c);
    assert LifeOk(s, SeatOf(s, c));
  }

  lemma WaitSelfKept(s: Sys, t: Sys, c: nat, x: nat, w: Wid, pc: Pc)
    requires Lives(s) && Kept(s, t) && Places(t, None) && Seated(t, c, x)
    requires x < |t.threads| && Busy(t.threads[x]) && Fits(w, pc)
    ensures Kept(s, WaitSelf(t, c, x, w, pc))
  {
    EnqueuePlaces(t, c, x, w, pc);
    PutKept(t, x, pc, InQueue(w));
    SameKept(Put(t, x, pc, InQueue(w)), Enqueue(t, x, w, pc));
    KeptTwice(t, Put(t, x, pc, InQueue(w)), Enqueue(t, x, w, pc));
    KeptTwice(s, t, Enqueue(t, x, w, pc));
    SwitchAfter(s, Enqueue(t, x, w, pc), c);
  }

  lemma ActLockKept(s: Sys, c: nat, x: nat, m: nat)
    requires Places(s, None) && Lives(s) && Seated(s, c, x) && x < |s.threads| && Busy(s.threads[x])
    ensures Kept(s, ActLock(s, c, x, m))
  {
    var t := Arrive(s, m, x);
    MutexPlaces(s, t, None);
    if M(s, m).locked {
      WaitSelfKept(s, t, c, x, OnMutex(m), AtLock(m));
    } else {
      PutKept(s, x, User, s.threads[x].loc);
    }
  }

  lemma ActWaitKept(s: Sys, c: nat, x: nat, v: nat, m: nat)
    requires Places(s, None) && Lives(s) && Seated(s, c, x) && x < |s.threads| && Busy(s.threads[x])
    ensures Kept(s, ActWait(s, c, x, v, m))
  {
    ReleasePlaces(s, m, x);
    ReleaseKept(s, m, x);
    if M(s, m).owner == x + 1 {
      var t := Release(s, m, x);
      OnCpuNow(s, c);
      assert QueueOk(s, OnMutex(m));
      if Q(s, OnMutex(m)) != [] { assert At(s, Q(s, OnMutex(m))[0], InQueue(OnMutex(m))); }
      WaitSelfKept(s, t, c, x, OnCv(v), AtWait(v, m));
    }
  }

  lemma ActFinishKept(s: Sys, c: nat, x: nat)
    requires Places(s, None) && Lives(s) && Seated(s, c, x) && x < |s.threads| && Busy(s.threads[x])
    requires s.cpus[c].phase.Inside?
    ensures Kept(s, ActFinish(s, c, x))
  {
    LeavingPlaces(s, c, x);
    var t := SetPhase(s, c, Leaving);
    var u := WakeAll(t, OnExit(x));
    SameKept(s, t);
    KeptLivesPhase(s, c);
    WakeAllKept(t, OnExit(x));
    KeptTwice(s, t, u);
    OnCpuNow(s, c);
    WakeAllKeeps(t, OnExit(x));
    assert QueueOk(t, OnExit(x));
    assert forall y: nat :: y in Q(t, OnExit(x)) ==> At(t, y, InQueue(OnExit(x)));
    PutKept(u, x, Finishing, u.threads[x].loc);
    KeptTwice(s, u, ActFinish(s, c, x));
  }

  /** Leaving the inside of a section does not matter. */
  lemma KeptLivesPhase(s: Sys, c: nat)
    requires Places(s, None) && Lives(s) && c < |s.cpus| && s.cpus[c].phase.Inside?
    ensures Lives(SetPhase(s, c, Leaving))
  {
    SameKept(s, SetPhase(s, c, Leaving));
    OverMarked(s);
    KeptLives(s, SetPhase(s, c, Leaving));
  }

  lemma OverMarked(s: Sys)
    requires Places(s, None)
    ensures forall x: nat | x < |s.threads| :: s.threads[x].loc.Over? ==> s.threads[x].pc.Marked?
  {
    forall x: nat | x < |s.threads| ensures s.threads[x].loc.Over? ==> s.threads[x].pc.Marked? {
      assert ThreadOk(s, x, None);
    }
  }

  lemma ActKept(s: Sys, c: nat)
    requires Places(s, None) && Lives(s) && c < |s.cpus| && s.cpus[c].phase.Inside? && s.cpus[c].seat.Some?
    requires !s.cpus[c].phase.op.Create? && !s.cpus[c].phase.op.Quit?
    ensures Kept(s, AfterAct(s, c, SeatOf(s, c), s.cpus[c].phase.op))
  {
    RunnerBusy(s, c);
    OnCpuNow(s, c);
    var x := SeatOf(s, c);
    var t := SetPhase(s, c, Leaving);
    LeavingPlaces(s, c, x);
    KeptLivesPhase(s, c);
    SameKept(s, t);
    match s.cpus[c].phase.op {
      case Lock(m) => ActLockKept(s, c, x, m);
      case Unlock(m) =>
        ReleaseKept(t, m, x);
        KeptTwice(s, t, Release(t, m, x));
      case Wait(v, m) => ActWaitKept(s, c, x, v, m);
      case Signal(v) =>
        WakeOneKept(t, OnCv(v));
        KeptTwice(s, t, WakeOne(t, OnCv(v)));
      case Broadcast(v) =>
        WakeAllKept(t, OnCv(v));
        KeptTwice(s, t, WakeAll(t, OnCv(v)));
      case Join(y) =>
        SameKept(s, s);
        WaitSelfKept(s, s, c, x, OnExit(y), AtJoin(y));
      case Yield =>
        YieldPlaces(s, c, x);
        PutKept(s, x, AtYield, InReady);
        SwitchAfter(s, PutInReady(SetPc(s, x, AtYield), x), c);
      case Finish => ActFinishKept(s, c, x);
      case _ =>
    }
  }

  lemma GarbageSeat(s: Sys, c: nat)
    requires Places(s, None) && Lives(s) && c < |s.cpus| && s.cpus[c].garbage.Some?
    ensures Is(s, s.cpus[c].garbage.value, Marked)
    ensures Seated(s, c, s.cpus[c].garbage.value) || s.cpus[c].phase.Landing?
  {
    assert GarbageOk(s, c);
    assert ThreadOk(s, s.cpus[c].garbage.value, None);
  }

  /** A CPU inside a section has no garbage, unless the section is the end of the thread. */
  lemma NoGarbage(s: Sys, c: nat)
    requires Places(s, None) && Lives(s) && c < |s.cpus| && !s.cpus[c].phase.Landing?
    requires s.cpus[c].seat.Some? ==> !Is(s, s.cpus[c].seat.value, Marked)
    ensures s.cpus[c].garbage.None?
  {
    if s.cpus[c].garbage.Some? { GarbageSeat(s, c); }
  }

  lemma ActLives(s: Sys, c: nat)
    requires Places(s, None) && Lives(s) && c < |s.cpus| && s.cpus[c].phase.Inside? && s.cpus[c].seat.Some?
    requires !s.cpus[c].phase.op.Create? && !s.cpus[c].phase.op.Quit?
    ensures Lives(AfterAct(s, c, SeatOf(s, c), s.cpus[c].phase.op))
  {
    ActKept(s, c);
    ActMoved(s, c, SeatOf(s, c), s.cpus[c].phase.op);
    OverMarked(s);
    var t := AfterAct(s, c, SeatOf(s, c), s.cpus[c].phase.op);
    forall d: nat | d < |s.cpus| ensures t.cpus[d].garbage == s.cpus[d].garbage
      && (s.cpus[d].phase.Landing? ==> t.cpus[d].phase.Landing?) {}
    KeptLives(s, t);
  }

  lemma CreateLives(s: Sys, c: nat)
    requires Places(s, None) && Lives(s) && c < |s.cpus| && s.cpus[c].phase == Inside(Create) && s.cpus[c].seat.Some?
    ensures Lives(ActCreate(s, c, SeatOf(s, c)))
  {
    OnCpuNow(s, c);
    var x, t := SeatOf(s, c), ActCreate(s, c, SeatOf(s, c));
    forall d: nat | d < |t.cpus| ensures GarbageOk(t, d) { assert GarbageOk(s, d); }
    forall y: nat | y < |t.threads| ensures LifeOk(t, y) {
      if y < |s.threads| { assert LifeOk(s, y); }
    }
    assert LifeOk(s, x);
    assert Makers(t) == Makers(s) - {x} && x in Makers(s);
    assert Unreclaimed(t) == Unreclaimed(s) + {|s.threads|};
  }

  lemma QuitKept(s: Sys, c: nat, x: nat)
    requires Places(s, None) && Lives(s) && Seated(s, c, x) && Is(s, x, Marked)
    ensures Kept(SetLoc(s, x, Over(c)), ActQuit(s, c, x))
    ensures Unreclaimed(ActQuit(s, c, x)) == Unreclaimed(s) && Makers(ActQuit(s, c, x)) == Makers(s)
  {
    var u := SetLoc(s, x, Over(c));
    QuitPlaces(s, c, x);
    if u.ready != [] {
      var y := u.ready[0];
      assert At(u, y, InReady);
      assert ThreadOk(u, y, Some(c)) && LifeOk(s, y);
    }
    SwitchKept(u, c);
    KeptSets(u, Switch(u, c));
    assert Unreclaimed(u) == Unreclaimed(s) && Makers(u) == Makers(s);
  }

  lemma QuitLives(s: Sys, c: nat)
    requires Places(s, None) && Lives(s) && c < |s.cpus| && s.cpus[c].phase == Inside(Quit) && s.cpus[c].seat.Some?
    ensures Lives(ActQuit(s, c, SeatOf(s, c)))
  {
    OnCpuNow(s, c);
    var x := SeatOf(s, c);
    var u := SetLoc(s, x, Over(c));
    var t := ActQuit(s, c, x);
    QuitKept(s, c, x);
    SwitchMoved(s, u, c);
    assert LifeOk(s, x);
    forall d: nat | d < |t.cpus| ensures GarbageOk(t, d) {
      assert GarbageOk(s, d);
      if s.cpus[d].garbage.Some? {
        var g := s.cpus[d].garbage.value;
        assert KeptAt(u.threads[g], t.threads[g]);
      }
    }
    forall y: nat | y < |t.threads| ensures LifeOk(t, y) {
      assert LifeOk(s, y) && KeptAt(u.threads[y], t.threads[y]);
    }
  }

  lemma ReclaimLives(s: Sys, c: nat)
    requires Places(s, None) && Lives(s) && c < |s.cpus| && s.cpus[c].phase.Landing?
    ensures Lives(Reclaim(s, c))
    ensures s.cpus[c].garbage.Some? ==>
              var g := s.cpus[c].garbage.value;
              At(s, g, Over(c)) && !s.threads[g].reclaimed && s.total > 0 && s.out > 0
  {
    assert GarbageOk(s, c);
    var t := Reclaim(s, c);
    if s.cpus[c].garbage.Some? {
      var g := s.cpus[c].garbage.value;
      assert ThreadOk(s, g, None);
      assert g in Unreclaimed(s) && Unreclaimed(t) == Unreclaimed(s) - {g};
      assert Makers(t) == Makers(s);
      forall d: nat | d < |t.cpus| ensures GarbageOk(t, d) { assert GarbageOk(s, d); }
      forall y: nat | y < |t.threads| ensures LifeOk(t, y) { assert LifeOk(s, y); }
    }
  }

  lemma LandLives(s: Sys, c: nat)
    requires Places(s, None) && Lives(s) && c < |s.cpus| && s.cpus[c].phase.Landing?
    ensures Lives(AfterLand(s, c))
  {
    var r := Reclaim(s, c);
    ReclaimLives(s, c);
    ReclaimPlaces(s, c);
    OverMarked(r);
    SameKept(r, AfterLand(s, c));
    KeptLives(r, AfterLand(s, c));
  }

  lemma ContinueLives(s: Sys, c: nat)
    requires Places(s, None) && Lives(s) && c < |s.cpus| && s.cpus[c].phase.Resuming?
    ensures Lives(AfterResume(s, c))
  {
    OverMarked(s);
    var t := SetPhase(s, c, Leaving);
    SameKept(s, t);
    KeptLives(s, t);
    if s.cpus[c].seat.Some? {
      var x := SeatOf(s, c);
      OnCpuNow(s, c);
      assert LifeOk(s, x);
      ResumeKeeps(t, x);
      PutKept(t, x, Resume(t, x).threads[x].pc, t.threads[x].loc);
      assert Kept(t, Resume(t, x));
      KeptLives(t, Resume(t, x));
    }
  }

  lemma OtherLives(s: Sys, st: Step)
    requires Places(s, None) && Lives(s) && Enabled(s, st) && (st.Enter? || st.Leave?)
    ensures Lives(Next(s, st))
  {
    SameKept(s, Next(s, st));
    OverMarked(s);
    KeptLives(s, Next(s, st));
  }

  lemma MarkLives(s: Sys, c: nat)
    requires Places(s, None) && Lives(s) && Outside(s, c, Finishing)
    ensures Lives(AfterMark(s, c, SeatOf(s, c)))
  {
    OnCpuNow(s, c);
    NoGarbage(s, c);
    var x, t := SeatOf(s, c), AfterMark(s, c, SeatOf(s, c));
    assert LifeOk(s, x);
    forall d: nat | d < |t.cpus| ensures GarbageOk(t, d) { assert GarbageOk(s, d); }
    forall y: nat | y < |t.threads| ensures LifeOk(t, y) { assert LifeOk(s, y); }
    assert Unreclaimed(t) == Unreclaimed(s) && Makers(t) == Makers(s);
  }

  lemma DropLives(s: Sys, t: nat)
    requires Lives(s) && t < |s.threads| && s.threads[t].shared.byThread
    ensures Lives(AfterDrop(s, t))
  {
    var u := AfterDrop(s, t);
    assert LifeOk(s, t);
    forall d: nat | d < |u.cpus| ensures GarbageOk(u, d) { assert GarbageOk(s, d); }
    forall y: nat | y < |u.threads| ensures LifeOk(u, y) { assert LifeOk(s, y); }
    assert Unreclaimed(u) == Unreclaimed(s) && Makers(u) == Makers(s);
  }

  lemma MakeLives(s: Sys, c: nat)
    requires Places(s, None) && Lives(s) && Outside(s, c, User) && s.out < STACKS
    ensures Lives(AfterMake(s, SeatOf(s, c)))
  {
    OnCpuNow(s, c);
    var x, t := SeatOf(s, c), AfterMake(s, SeatOf(s, c));
    assert LifeOk(s, x);
    forall d: nat | d < |t.cpus| ensures GarbageOk(t, d) { assert GarbageOk(s, d); }
    forall y: nat | y < |t.threads| ensures LifeOk(t, y) { assert LifeOk(s, y); }
    assert Unreclaimed(t) == Unreclaimed(s);
    assert Makers(t) == Makers(s) + {x} && x !in Makers(s);
  }

  lemma DispatchLives(s: Sys, c: nat)
    requires Places(s, None) && Lives(s) && c < |s.cpus| && s.cpus[c].seat.None? && s.cpus[c].phase.Inside?
    ensures Lives(ActDispatch(s, c))
  {
    SameKept(s, s);
    MainPlaces(s, c);
    if s.ready == [] { KeptLivesPhase(s, c); }
    else {
      SwitchAfter(s, s, c);
      OverMarked(s);
      KeptLives(s, Switch(s, c));
    }
  }

  lemma StepLives(s: Sys, st: Step)
    requires Places(s, None) && Lives(s) && Enabled(s, st)
    ensures Lives(Next(s, st))
  {
    var c := st.c;
    if st.Act? {
      assert SeatOk(s, c);
      if s.cpus[c].seat.None? { DispatchLives(s, c); }
      else if s.cpus[c].phase.op.Create? { CreateLives(s, c); }
      else if s.cpus[c].phase.op.Quit? { QuitLives(s, c); }
      else { ActLives(s, c); }
    }
    else if st.Land? { LandLives(s, c); }
    else if st.Continue? { ContinueLives(s, c); }
    else if st.Mark? { MarkLives(s, c); }
    else if st.Make? { MakeLives(s, c); }
    else if st.Drop? { DropLives(s, st.t); }
    else { OtherLives(s, st); }
  }
}
