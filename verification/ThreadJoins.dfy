/** Joining: a joiner is woken only by the end of the thread it joins, and with one CPU always is. */
module ThreadJoins {
  import opened Prelude
  import opened Threads

  predicate Ended(s: Sys, t: nat) {
    t < |s.threads| && (s.threads[t].pc.Finishing? || s.threads[t].pc.Marked?)
  }

  /** Context `x` joined thread `t` and is parked. */
  predicate Joining(s: Sys, x: nat, t: nat) {
    Is(s, x, AtJoin(t)) && s.threads[x].loc.InQueue?
  }

  ghost predicate JoinOk(s: Sys, x: nat)
    requires x < |s.threads|
  {
    s.threads[x].pc.AtJoin? ==>
      var t := s.threads[x].pc.t;
      && t < |s.threads| && (Joining(s, x, t) || Ended(s, t))
      && (|s.cpus| == 1 && Joining(s, x, t) ==> !Ended(s, t))
  }

  ghost predicate Joins(s: Sys) {
    && (forall x: nat | x < |s.threads| :: JoinOk(s, x))
    && (forall x: nat | x < |s.threads| :: s.threads[x].shared.val <==> s.threads[x].pc.Marked?)
  }

  /** What a section of context `x` does to another one: `exits` if it wakes the joiners of `x`. */
  ghost predicate OtherKept(s: Sys, t: Sys, y: nat, x: nat, exits: bool)
    requires y < |s.threads| <= |t.threads|
  {
    && t.threads[y].pc == s.threads[y].pc && t.threads[y].shared == s.threads[y].shared
    && (!s.threads[y].loc.InQueue? ==> !t.threads[y].loc.InQueue?)
    && (s.threads[y].loc.Over? || s.threads[y].loc.OnCpu? ==> t.threads[y].loc == s.threads[y].loc)
    && (s.threads[y].loc.InQueue? && s.threads[y].loc.w.OnExit? && !(exits && s.threads[y].loc.w.t == x) ==>
          t.threads[y].loc == s.threads[y].loc)
    && (exits && s.threads[y].loc == InQueue(OnExit(x)) ==> !t.threads[y].loc.InQueue?)
  }

  /** The same threads, and perhaps a new one. */
  predicate Grown(s: Sys, t: Sys) {
    var n := |s.threads|;
    |t.threads| == n || (|t.threads| == n + 1 && t.threads[n].pc.Fresh? && !t.threads[n].shared.val)
  }

  ghost predicate OthersKept(s: Sys, t: Sys, x: nat, exits: bool) {
    && Grown(s, t) && |t.cpus| == |s.cpus|
    && forall y: nat | y < |s.threads| && y != x :: OtherKept(s, t, y, x, exits)
  }

  // ----- how many threads there are -----

  lemma SwitchSize(s: Sys, c: nat)
    ensures |Switch(s, c).threads| == |s.threads|
  {
  }

  lemma ReleaseSize(s: Sys, m: nat, x: nat)
    ensures |Release(s, m, x).threads| == |s.threads|
  {
  }

  lemma LockSize(s: Sys, c: nat, x: nat, m: nat)
    ensures |ActLock(s, c, x, m).threads| == |s.threads|
  {
    SwitchSize(Enqueue(Arrive(s, m, x), x, OnMutex(m), AtLock(m)), c);
  }

  lemma WaitSize(s: Sys, c: nat, x: nat, v: nat, m: nat)
    ensures |ActWait(s, c, x, v, m).threads| == |s.threads|
  {
    ReleaseSize(s, m, x);
    SwitchSize(Enqueue(Release(s, m, x), x, OnCv(v), AtWait(v, m)), c);
  }

  lemma JoinSize(s: Sys, c: nat, x: nat, t: nat)
    ensures |ActJoin(s, c, x, t).threads| == |s.threads|
  {
    SwitchSize(Enqueue(s, x, OnExit(t), AtJoin(t)), c);
  }

  lemma YieldSize(s: Sys, c: nat, x: nat)
    ensures |ActYield(s, c, x).threads| == |s.threads|
  {
    SwitchSize(PutInReady(SetPc(s, x, AtYield), x), c);
  }

  lemma WakeSize(s: Sys, c: nat, x: nat, v: nat)
    ensures |ActFinish(s, c, x).threads| == |WakeAll(SetPhase(s, c, Leaving), OnCv(v)).threads| == |s.threads|
  {
    WakeAllKeeps(SetPhase(s, c, Leaving), OnCv(v));
    WakeAllKeeps(SetPhase(s, c, Leaving), OnExit(x));
  }

  /** Only the making of a thread adds one, ready to start in the wrapper function. */
  lemma ActGrows(s: Sys, c: nat, x: nat, op: Op)
    ensures var t, n := AfterAct(s, c, x, op), |s.threads|;
            && |t.threads| == (if op.Create? then n + 1 else n)
            && (op.Create? ==> t.threads[n] == Thread(Fresh, InReady, Shared(true, true, false, 0), false))
  {
    match op {
      case Lock(m) => LockSize(s, c, x, m);
      case Unlock(m) => ReleaseSize(SetPhase(s, c, Leaving), m, x);
      case Wait(v, m) => WaitSize(s, c, x, v, m);
      case Signal(_) =>
      case Broadcast(v) => WakeSize(s, c, x, v);
      case Join(y) => JoinSize(s, c, x, y);
      case Yield => YieldSize(s, c, x);
      case Create =>
      case Finish => WakeSize(s, c, x, 0);
      case Quit => SwitchSize(SetLoc(s, x, Over(c)), c);
      case Dispatch => SwitchSize(s, c);
    }
  }

  // ----- the other contexts -----

  lemma KeptTwice(s: Sys, t: Sys, u: Sys, x: nat, exits: bool)
    requires OthersKept(s, t, x, false) && OthersKept(t, u, x, exits) && |t.threads| == |s.threads|
    ensures OthersKept(s, u, x, exits)
  {
    forall y: nat | y < |s.threads| && y != x ensures OtherKept(s, u, y, x, exits) {
      assert OtherKept(s, t, y, x, false) && OtherKept(t, u, y, x, exits);
    }
  }

  lemma SwitchOthers(s: Sys, c: nat, x: nat)
    requires OnList(s, s.ready, InReady)
    ensures OthersKept(s, Switch(s, c), x, false)
  {
  }

  lemma WakeOneOthers(s: Sys, w: Wid, x: nat)
    requires Places(s, None) && !w.OnExit?
    ensures OthersKept(s, WakeOne(s, w), x, false)
  {
    assert QueueOk(s, w);
    if Q(s, w) != [] { assert At(s, Q(s, w)[0], InQueue(w)); }
  }

  lemma WakeAllOthers(s: Sys, w: Wid, x: nat)
    requires Places(s, None) && (w.OnExit? ==> w.t == x)
    ensures OthersKept(s, WakeAll(s, w), x, w.OnExit?)
  {
    WakeAllKeeps(s, w);
    WakeAllMoves(s, w);
    WakeAllPlaces(s, w);
    assert QueueOk(s, w);
    var t := WakeAll(s, w);
    forall y: nat | y < |s.threads| && y != x ensures OtherKept(s, t, y, x, w.OnExit?) {
      assert ThreadOk(t, y, None);
      if y in Q(s, w) { assert At(s, y, InQueue(w)); }
    }
  }

  lemma ActFinishOthers(s: Sys, c: nat, x: nat)
    requires Places(s, None) && Seated(s, c, x) && s.cpus[c].phase.Inside?
    ensures OthersKept(s, ActFinish(s, c, x), x, true)
  {
    LeavingPlaces(s, c, x);
    var t := SetPhase(s, c, Leaving);
    var u := WakeAll(t, OnExit(x));
    WakeAllKeeps(t, OnExit(x));
    WakeAllOthers(t, OnExit(x), x);
    KeptTwice(s, t, u, x, true);
    forall y: nat | y < |s.threads| && y != x ensures OtherKept(s, ActFinish(s, c, x), y, x, true) {
      assert OtherKept(s, u, y, x, true);
    }
  }

  lemma WaitSelfOthers(s: Sys, c: nat, x: nat, w: Wid, pc: Pc)
    requires Places(s, None) && Seated(s, c, x) && Fits(w, pc)
    ensures OthersKept(s, WaitSelf(s, c, x, w, pc), x, false)
  {
    EnqueuePlaces(s, c, x, w, pc);
    SwitchOthers(Enqueue(s, x, w, pc), c, x);
    KeptTwice(s, Enqueue(s, x, w, pc), WaitSelf(s, c, x, w, pc), x, false);
  }

  lemma ReleaseOthers(s: Sys, m: nat, x: nat)
    requires Places(s, None)
    ensures OthersKept(s, Release(s, m, x), x, false)
  {
    assert QueueOk(s, OnMutex(m));
    if Q(s, OnMutex(m)) != [] { assert At(s, Q(s, OnMutex(m))[0], InQueue(OnMutex(m))); }
  }

  lemma ActWaitOthers(s: Sys, c: nat, x: nat, v: nat, m: nat)
    requires Places(s, None) && Seated(s, c, x)
    ensures OthersKept(s, ActWait(s, c, x, v, m), x, false)
  {
    if M(s, m).owner == x + 1 {
      ReleasePlaces(s, m, x);
      ReleaseOthers(s, m, x);
      WaitSelfOthers(Release(s, m, x), c, x, OnCv(v), AtWait(v, m));
      KeptTwice(s, Release(s, m, x), ActWait(s, c, x, v, m), x, false);
    }
  }

  lemma ActLockOthers(s: Sys, c: nat, x: nat, m: nat)
    requires Places(s, None) && Seated(s, c, x)
    ensures OthersKept(s, ActLock(s, c, x, m), x, false)
  {
    var t := Arrive(s, m, x);
    MutexPlaces(s, t, None);
    WaitSelfOthers(t, c, x, OnMutex(m), AtLock(m));
    KeptTwice(s, t, WaitSelf(t, c, x, OnMutex(m), AtLock(m)), x, false);
  }

  lemma ActUnlockOthers(s: Sys, c: nat, x: nat, m: nat)
    requires Places(s, None) && Seated(s, c, x) && s.cpus[c].phase.Inside?
    ensures OthersKept(s, ActUnlock(s, c, x, m), x, false)
  {
    LeavingPlaces(s, c, x);
    var t := SetPhase(s, c, Leaving);
    ReleaseOthers(t, m, x);
    KeptTwice(s, t, Release(t, m, x), x, false);
  }

  lemma ActYieldOthers(s: Sys, c: nat, x: nat)
    requires Places(s, None) && Seated(s, c, x)
    ensures OthersKept(s, ActYield(s, c, x), x, false)
  {
    var u := PutInReady(SetPc(s, x, AtYield), x);
    YieldPlaces(s, c, x);
    SwitchOthers(u, c, x);
    KeptTwice(s, u, Switch(u, c), x, false);
  }

  lemma ActQuitOthers(s: Sys, c: nat, x: nat)
    requires Places(s, None) && Seated(s, c, x) && Is(s, x, Marked)
    ensures OthersKept(s, ActQuit(s, c, x), x, false)
  {
    QuitPlaces(s, c, x);
    SwitchOthers(SetLoc(s, x, Over(c)), c, x);
    KeptTwice(s, SetLoc(s, x, Over(c)), ActQuit(s, c, x), x, false);
  }

  lemma ActOthers(s: Sys, c: nat, x: nat, op: Op)
    requires Places(s, None) && Seated(s, c, x) && s.cpus[c].phase == Inside(op)
    ensures OthersKept(s, AfterAct(s, c, x, op), x, op.Finish?)
  {
    OnCpuNow(s, c);
    LeavingPlaces(s, c, x);
    var t := SetPhase(s, c, Leaving);
    match op {
      case Lock(m) => ActLockOthers(s, c, x, m);
      case Unlock(m) => ActUnlockOthers(s, c, x, m);
      case Wait(v, m) => ActWaitOthers(s, c, x, v, m);
      case Signal(v) =>
        WakeOneOthers(t, OnCv(v), x);
        KeptTwice(s, t, WakeOne(t, OnCv(v)), x, false);
      case Broadcast(v) =>
        WakeAllOthers(t, OnCv(v), x);
        KeptTwice(s, t, WakeAll(t, OnCv(v)), x, false);
      case Join(y) => WaitSelfOthers(s, c, x, OnExit(y), AtJoin(y));
      case Yield => ActYieldOthers(s, c, x);
      case Create =>
      case Finish => ActFinishOthers(s, c, x);
      case Quit => ActQuitOthers(s, c, x);
      case Dispatch =>
    }
  }

  /** Nobody else's join is affected, and context `x` itself satisfies its own part afterwards. */
  lemma OthersJoins(s: Sys, t: Sys, x: nat, exits: bool)
    requires Places(s, None) && Joins(s) && OthersKept(s, t, x, exits) && x < |s.threads|
    requires Ended(s, x) ==> Ended(t, x)
    requires (exits || |s.cpus| > 1) || !Ended(t, x) || Ended(s, x)
    requires exits ==> Ended(t, x)
    requires JoinOk(t, x) && (t.threads[x].shared.val <==> t.threads[x].pc.Marked?)
    ensures Joins(t)
  {
    forall y: nat | y < |t.threads| ensures JoinOk(t, y) && (t.threads[y].shared.val <==> t.threads[y].pc.Marked?) {
      if y != x && y < |s.threads| {
        assert JoinOk(s, y) && OtherKept(s, t, y, x, exits) && ThreadOk(s, y, None);
        if s.threads[y].pc.AtJoin? {
          var z := s.threads[y].pc.t;
          if z != x { assert OtherKept(s, t, z, x, exits); }
        }
      }
    }
  }

  // ----- the context that acts -----

  /** Where a context is after its own section. */
  ghost predicate SelfAfter(s: Sys, t: Sys, x: nat, op: Op) {
    && x < |s.threads| && x < |t.threads| && t.threads[x].shared == s.threads[x].shared
    && (op.Quit? <==> t.threads[x].pc.Marked?) && (op.Finish? <==> t.threads[x].pc.Finishing?)
    && (t.threads[x].pc.AtJoin? ==> op == Join(t.threads[x].pc.t) && t.threads[x].loc == InQueue(OnExit(op.t))
                                    && op.t < |s.threads| && !s.threads[op.t].shared.val)
  }

  lemma SwitchSelf(s: Sys, c: nat, x: nat)
    requires OnList(s, s.ready, InReady) && x < |s.threads|
    ensures |Switch(s, c).threads| == |s.threads|
    ensures Switch(s, c).threads[x].pc == s.threads[x].pc && Switch(s, c).threads[x].shared == s.threads[x].shared
    ensures s.threads[x].loc.InQueue? ==> Switch(s, c).threads[x].loc == s.threads[x].loc
  {
  }

  lemma WaitSelfSelf(s: Sys, c: nat, x: nat, w: Wid, pc: Pc)
    requires Places(s, None) && Seated(s, c, x) && Fits(w, pc) && x < |s.threads|
    ensures var t := WaitSelf(s, c, x, w, pc);
            x < |t.threads| && t.threads[x] == s.threads[x].(pc := pc, loc := InQueue(w))
  {
    EnqueuePlaces(s, c, x, w, pc);
    SwitchSelf(Enqueue(s, x, w, pc), c, x);
    SwitchReclaimed(Enqueue(s, x, w, pc), c, x);
  }

  lemma SwitchReclaimed(s: Sys, c: nat, x: nat)
    requires x < |s.threads|
    ensures |Switch(s, c).threads| == |s.threads| && Switch(s, c).threads[x].reclaimed == s.threads[x].reclaimed
  {
  }

  lemma ReleaseSelf(s: Sys, c: nat, m: nat, x: nat)
    requires Places(s, None) && Seated(s, c, x) && x < |s.threads|
    ensures x < |Release(s, m, x).threads| && Release(s, m, x).threads[x] == s.threads[x]
    ensures Seated(Release(s, m, x), c, x)
  {
    OnCpuNow(s, c);
    assert QueueOk(s, OnMutex(m));
    if Q(s, OnMutex(m)) != [] { assert At(s, Q(s, OnMutex(m))[0], InQueue(OnMutex(m))); }
  }

  lemma ActWaitSelf(s: Sys, c: nat, x: nat, v: nat, m: nat)
    requires Places(s, None) && Seated(s, c, x) && x < |s.threads| && !Ended(s, x) && !s.threads[x].pc.AtJoin?
    ensures SelfAfter(s, ActWait(s, c, x, v, m), x, Wait(v, m))
  {
    if M(s, m).owner == x + 1 {
      ReleasePlaces(s, m, x);
      ReleaseSelf(s, c, m, x);
      WaitSelfSelf(Release(s, m, x), c, x, OnCv(v), AtWait(v, m));
    }
  }

  lemma WakeOneSelf(s: Sys, c: nat, x: nat, w: Wid)
    requires Places(s, None) && Seated(s, c, x) && x < |s.threads|
    ensures |WakeOne(s, w).threads| == |s.threads| && WakeOne(s, w).threads[x] == s.threads[x]
  {
    OnCpuNow(s, c);
    assert QueueOk(s, w);
    if Q(s, w) != [] { assert At(s, Q(s, w)[0], InQueue(w)); }
  }

  lemma WakeAllSelf(s: Sys, c: nat, x: nat, w: Wid)
    requires Places(s, None) && Seated(s, c, x) && x < |s.threads|
    ensures |WakeAll(s, w).threads| == |s.threads| && WakeAll(s, w).threads[x] == s.threads[x]
  {
    OnCpuNow(s, c);
    WakeAllKeeps(s, w);
    assert QueueOk(s, w);
    assert forall y: nat :: y in Q(s, w) ==> At(s, y, InQueue(w));
  }

  lemma ActSelf(s: Sys, c: nat, x: nat, op: Op)
    requires Places(s, None) && Seated(s, c, x) && s.cpus[c].phase == Inside(op)
    ensures SelfAfter(s, AfterAct(s, c, x, op), x, op)
  {
    OnCpuNow(s, c);
    LeavingPlaces(s, c, x);
    var t := SetPhase(s, c, Leaving);
    match op {
      case Lock(m) =>
        MutexPlaces(s, Arrive(s, m, x), None);
        WaitSelfSelf(Arrive(s, m, x), c, x, OnMutex(m), AtLock(m));
      case Unlock(m) => ReleaseSelf(t, c, m, x);
      case Wait(v, m) => ActWaitSelf(s, c, x, v, m);
      case Signal(v) => WakeOneSelf(t, c, x, OnCv(v));
      case Broadcast(v) => WakeAllSelf(t, c, x, OnCv(v));
      case Join(y) => WaitSelfSelf(s, c, x, OnExit(y), AtJoin(y));
      case Yield =>
        YieldPlaces(s, c, x);
        SwitchSelf(PutInReady(SetPc(s, x, AtYield), x), c, x);
      case Create =>
      case Finish => WakeAllSelf(t, c, x, OnExit(x));
      case Quit =>
        QuitPlaces(s, c, x);
        SwitchSelf(SetLoc(s, x, Over(c)), c, x);
      case Dispatch =>
    }
  }

  // ----- steps -----

  /** With one CPU, a thread that is past waking its joiners is the one that runs. */
  lemma FinishingRuns(s: Sys, c: nat, x: nat, t: nat)
    requires Places(s, None) && Seated(s, c, x) && |s.cpus| == 1
    requires t < |s.threads| && s.threads[t].pc.Finishing?
    ensures x == t
  {
    assert ThreadOk(s, t, None);
  }

  lemma ActJoins(s: Sys, c: nat)
    requires Places(s, None) && Joins(s) && c < |s.cpus| && s.cpus[c].phase.Inside? && s.cpus[c].seat.Some?
    ensures Joins(AfterAct(s, c, SeatOf(s, c), s.cpus[c].phase.op))
  {
    OnCpuNow(s, c);
    var x, op := SeatOf(s, c), s.cpus[c].phase.op;
    var t := AfterAct(s, c, x, op);
    ActOthers(s, c, x, op);
    ActSelf(s, c, x, op);
    assert JoinOk(t, x) by {
      if t.threads[x].pc.AtJoin? {
        var z := op.t;
        assert z != x ==> OtherKept(s, t, z, x, false);
        if |s.cpus| == 1 && s.threads[z].pc.Finishing? { FinishingRuns(s, c, x, z); }
      }
    }
    OthersJoins(s, t, x, op.Finish?);
  }

  /** Steps that change no program point, or take a thread past marking, or resume one. */
  lemma QuietJoins(s: Sys, t: Sys, x: nat)
    requires Places(s, None) && Joins(s) && x < |s.threads| == |t.threads| && |t.cpus| == |s.cpus|
    requires forall y: nat | y < |s.threads| :: t.threads[y].loc == s.threads[y].loc
    requires forall y: nat | y < |s.threads| && y != x ::
               t.threads[y].pc == s.threads[y].pc && t.threads[y].shared.val == s.threads[y].shared.val
    requires !t.threads[x].pc.AtJoin? || t.threads[x].pc == s.threads[x].pc
    requires Ended(t, x) <==> Ended(s, x)
    requires t.threads[x].shared.val <==> t.threads[x].pc.Marked?
    ensures Joins(t)
  {
    forall y: nat | y < |t.threads| ensures JoinOk(t, y) && (t.threads[y].shared.val <==> t.threads[y].pc.Marked?) {
      assert JoinOk(s, y);
    }
  }

  lemma SameJoins(s: Sys, t: Sys)
    requires Joins(s) && t.threads == s.threads && |t.cpus| == |s.cpus|
    ensures Joins(t)
  {
    forall y: nat | y < |t.threads| ensures JoinOk(t, y) { assert JoinOk(s, y); }
  }

  lemma DispatchJoins(s: Sys, c: nat)
    requires Places(s, None) && Joins(s) && c < |s.cpus|
    ensures Joins(ActDispatch(s, c))
  {
    var t := ActDispatch(s, c);
    if s.ready == [] { SameJoins(s, t); }
    else {
      var x := s.ready[0];
      assert At(s, x, InReady);
      forall y: nat | y < |t.threads| ensures JoinOk(t, y) && (t.threads[y].shared.val <==> t.threads[y].pc.Marked?) {
        assert JoinOk(s, y);
      }
    }
  }

  lemma LandJoins(s: Sys, c: nat)
    requires Joins(s) && c < |s.cpus|
    ensures Joins(AfterLand(s, c))
  {
    var r := AfterLand(s, c);
    ReclaimThreads(s, c);
    LandMoved(s, c);
    forall y: nat | y < |r.threads| ensures JoinOk(r, y) && (r.threads[y].shared.val <==> r.threads[y].pc.Marked?) {
      assert JoinOk(s, y);
    }
  }

  lemma ContinueJoins(s: Sys, c: nat)
    requires Places(s, None) && Joins(s) && c < |s.cpus| && s.cpus[c].phase.Resuming?
    ensures Joins(AfterResume(s, c))
  {
    var r := SetPhase(s, c, Leaving);
    SameJoins(s, r);
    if s.cpus[c].seat.Some? { ResumeJoins(r, s, c, SeatOf(s, c)); }
  }

  lemma ResumeJoins(s: Sys, r: Sys, c: nat, x: nat)
    requires Places(r, None) && Seated(r, c, x) && r.cpus[c].phase.Resuming? && s == SetPhase(r, c, Leaving) && Joins(s)
    ensures Joins(Resume(s, x))
  {
    OnCpuNow(r, c);
    ResumeKeeps(s, x);
    var t := Resume(s, x);
    forall y: nat | y < |t.threads| ensures JoinOk(t, y) && (t.threads[y].shared.val <==> t.threads[y].pc.Marked?) {
      assert JoinOk(s, y);
    }
  }

  lemma OtherJoins(s: Sys, st: Step)
    requires Places(s, None) && Joins(s) && Enabled(s, st) && !st.Act? && !st.Land? && !st.Continue?
    ensures Joins(Next(s, st))
  {
    if st.Enter? || st.Leave? {
      SameJoins(s, Next(s, st));
    } else {
      OnCpuNow(s, st.c);
      QuietJoins(s, Next(s, st), if st.Drop? then st.t else SeatOf(s, st.c));
    }
  }

  lemma StepJoins(s: Sys, st: Step)
    requires Places(s, None) && Joins(s) && Enabled(s, st)
    ensures Joins(Next(s, st))
  {
    if st.Act? {
      assert SeatOk(s, st.c);
      if s.cpus[st.c].seat.Some? { ActJoins(s, st.c); } else { DispatchJoins(s, st.c); }
    } else if st.Land? {
      LandJoins(s, st.c);
    } else if st.Continue? {
      ContinueJoins(s, st.c);
    } else {
      OtherJoins(s, st);
    }
  }
}
