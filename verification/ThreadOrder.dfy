/** Order: contexts leave the ready queue and every wait queue in the order in which they came. */
module ThreadOrder {
  import opened Prelude
  import opened Threads

  /** Everything ever put in the ready queue, in order; and the same for a wait queue. */
  function Readied(s: Sys): seq<nat> {
    s.dispatched + s.ready
  }

  function Queued(s: Sys, w: Wid): seq<nat> {
    Woken(s, w) + Q(s, w)
  }

  ghost predicate GrowsAt(s: Sys, t: Sys, w: Wid) {
    Woken(s, w) <= Woken(t, w) && Queued(s, w) <= Queued(t, w)
  }

  /** Queues change only by taking from the front and adding at the back. */
  ghost predicate Grows(s: Sys, t: Sys) {
    && s.dispatched <= t.dispatched && Readied(s) <= Readied(t)
    && forall w :: GrowsAt(s, t, w)
  }

  lemma SameGrows(s: Sys, t: Sys)
    requires t.ready == s.ready && t.dispatched == s.dispatched && t.queues == s.queues && t.woken == s.woken
    ensures Grows(s, t)
  {
    forall w ensures GrowsAt(s, t, w) {}
  }

  lemma GrowsTwice(s: Sys, t: Sys, u: Sys)
    requires Grows(s, t) && Grows(t, u)
    ensures Grows(s, u)
  {
    forall w ensures GrowsAt(s, u, w) {
      assert GrowsAt(s, t, w) && GrowsAt(t, u, w);
    }
  }

  lemma MoveFront(a: seq<nat>, b: seq<nat>)
    requires b != []
    ensures (a + [b[0]]) + b[1..] == a + b
  {
  }

  /** Of what waited, `b`, when `a` had been taken: after `a'` were taken and with `b'` waiting, the one at
      depth `k` was taken after exactly `k` others, or has moved up by as many as were taken. */
  predicate InTurn(a: seq<nat>, b: seq<nat>, a': seq<nat>, b': seq<nat>, k: nat) {
    && |a| <= |a'| && k < |b|
    && var taken := |a'| - |a|;
       if taken > k then a'[|a| + k] == b[k] else k - taken < |b'| && b'[k - taken] == b[k]
  }

  lemma Shifted(a: seq<nat>, b: seq<nat>, a': seq<nat>, b': seq<nat>, k: nat)
    requires a <= a' && a + b <= a' + b' && k < |b|
    ensures InTurn(a, b, a', b', k)
  {
    assert (a + b)[|a| + k] == b[k];
    assert (a' + b')[|a| + k] == b[k];
  }

  lemma SwitchGrows(s: Sys, c: nat)
    ensures Grows(s, Switch(s, c))
  {
    var t := Switch(s, c);
    if s.ready != [] { MoveFront(s.dispatched, s.ready); }
    forall w ensures GrowsAt(s, t, w) {}
  }

  lemma EnqueueGrows(s: Sys, x: nat, w: Wid, pc: Pc)
    ensures Grows(s, Enqueue(s, x, w, pc))
  {
    forall v ensures GrowsAt(s, Enqueue(s, x, w, pc), v) {}
  }

  lemma WaitSelfGrows(s: Sys, c: nat, x: nat, w: Wid, pc: Pc)
    ensures Grows(s, WaitSelf(s, c, x, w, pc))
  {
    EnqueueGrows(s, x, w, pc);
    SwitchGrows(Enqueue(s, x, w, pc), c);
    GrowsTwice(s, Enqueue(s, x, w, pc), WaitSelf(s, c, x, w, pc));
  }

  lemma WakeOneGrows(s: Sys, w: Wid)
    ensures Grows(s, WakeOne(s, w))
  {
    var t := WakeOne(s, w);
    if Q(s, w) != [] { MoveFront(Woken(s, w), Q(s, w)); }
    forall v ensures GrowsAt(s, t, v) {
      if v != w { assert Woken(t, v) == Woken(s, v) && Q(t, v) == Q(s, v); }
    }
  }

  lemma {:induction false} WakeAllGrows(s: Sys, w: Wid)
    ensures Grows(s, WakeAll(s, w))
    decreases |Q(s, w)|
  {
    if Q(s, w) == [] {
      SameGrows(s, s);
    } else {
      WakeOneGrows(s, w);
      WakeAllGrows(WakeOne(s, w), w);
      GrowsTwice(s, WakeOne(s, w), WakeAll(s, w));
    }
  }

  lemma ReleaseGrows(s: Sys, m: nat, x: nat)
    ensures Grows(s, Release(s, m, x))
  {
    var v := M(s, m).(locked := false, owner := 0, holders := M(s, m).holders - {x});
    var q := Q(s, OnMutex(m));
    if q == [] {
      SameGrows(s, Release(s, m, x));
    } else {
      var t := SetMutex(s, m, v.(locked := true, grantee := Some(q[0])));
      SameGrows(s, t);
      WakeOneGrows(t, OnMutex(m));
      GrowsTwice(s, t, WakeOne(t, OnMutex(m)));
    }
  }

  lemma WaitGrows(s: Sys, c: nat, x: nat, v: nat, m: nat)
    ensures Grows(s, ActWait(s, c, x, v, m))
  {
    var r := Release(s, m, x);
    SameGrows(s, SetPhase(s, c, Leaving));
    ReleaseGrows(s, m, x);
    WaitSelfGrows(r, c, x, OnCv(v), AtWait(v, m));
    GrowsTwice(s, r, WaitSelf(r, c, x, OnCv(v), AtWait(v, m)));
  }

  lemma YieldGrows(s: Sys, c: nat, x: nat)
    ensures Grows(s, ActYield(s, c, x))
  {
    var u := PutInReady(SetPc(s, x, AtYield), x);
    SameGrows(s, SetPhase(s, c, Leaving));
    ReadyGrows(s, u, x);
    SwitchGrows(u, c);
    GrowsTwice(s, u, Switch(u, c));
  }

  lemma FinishGrows(s: Sys, c: nat, x: nat)
    ensures Grows(s, ActFinish(s, c, x))
  {
    var t := SetPhase(s, c, Leaving);
    var u := WakeAll(t, OnExit(x));
    SameGrows(s, t);
    WakeAllGrows(t, OnExit(x));
    GrowsTwice(s, t, u);
    SameGrows(u, SetPc(u, x, Finishing));
    GrowsTwice(s, u, SetPc(u, x, Finishing));
  }

  lemma ActGrows(s: Sys, c: nat, x: nat, op: Op)
    ensures Grows(s, AfterAct(s, c, x, op))
  {
    var t := SetPhase(s, c, Leaving);
    SameGrows(s, t);
    match op {
      case Lock(m) => LockGrows(s, c, x, m);
      case Unlock(m) =>
        ReleaseGrows(t, m, x);
        GrowsTwice(s, t, Release(t, m, x));
      case Wait(v, m) => WaitGrows(s, c, x, v, m);
      case Signal(v) =>
        WakeOneGrows(t, OnCv(v));
        GrowsTwice(s, t, WakeOne(t, OnCv(v)));
      case Broadcast(v) =>
        WakeAllGrows(t, OnCv(v));
        GrowsTwice(s, t, WakeAll(t, OnCv(v)));
      case Join(y) => WaitSelfGrows(s, c, x, OnExit(y), AtJoin(y));
      case Yield => YieldGrows(s, c, x);
      case Create => ReadyGrows(s, ActCreate(s, c, x), |s.threads|);
      case Finish => FinishGrows(s, c, x);
      case Quit =>
        SameGrows(s, SetLoc(s, x, Over(c)));
        SwitchGrows(SetLoc(s, x, Over(c)), c);
        GrowsTwice(s, SetLoc(s, x, Over(c)), ActQuit(s, c, x));
      case Dispatch => SwitchGrows(s, c);
    }
  }

  lemma ReadyGrows(s: Sys, t: Sys, x: nat)
    requires t.ready == s.ready + [x] && t.dispatched == s.dispatched && t.queues == s.queues && t.woken == s.woken
    ensures Grows(s, t)
  {
    forall w ensures GrowsAt(s, t, w) {}
  }

  lemma LockGrows(s: Sys, c: nat, x: nat, m: nat)
    ensures Grows(s, ActLock(s, c, x, m))
  {
    var t := Arrive(s, m, x);
    SameGrows(s, t);
    if M(s, m).locked {
      WaitSelfGrows(t, c, x, OnMutex(m), AtLock(m));
      GrowsTwice(s, t, WaitSelf(t, c, x, OnMutex(m), AtLock(m)));
    } else {
      SameGrows(s, ActLock(s, c, x, m));
    }
  }

  lemma StepGrows(s: Sys, st: Step)
    requires Enabled(s, st)
    ensures Grows(s, Next(s, st))
  {
    if st.Act? {
      ActGrows(s, st.c, SeatOf(s, st.c), OpOf(s, st.c));
    } else if st.Land? {
      SameGrows(s, AfterLand(s, st.c));
    } else if st.Continue? {
      var r := SetPhase(s, st.c, Leaving);
      if SeatOf(s, st.c) < |r.threads| { ResumeKeeps(r, SeatOf(s, st.c)); }
      SameGrows(s, AfterResume(s, st.c));
    } else {
      SameGrows(s, Next(s, st));
    }
  }

  lemma {:induction false} RunGrows(s: Sys, steps: seq<Step>)
    requires ValidRun(s, steps)
    ensures Grows(s, Run(s, steps))
    decreases |steps|
  {
    if steps == [] {
      SameGrows(s, s);
    } else {
      StepGrows(s, steps[0]);
      RunGrows(Next(s, steps[0]), steps[1..]);
      GrowsTwice(s, Next(s, steps[0]), Run(s, steps));
    }
  }

  /** The context at depth `k` of the ready queue is the one dispatched after exactly `k` others, whatever
      else is put in the queue meanwhile. */
  lemma DispatchOrder(s: Sys, steps: seq<Step>, t: Sys, k: nat)
    requires ValidRun(s, steps) && t == Run(s, steps) && k < |s.ready|
    ensures InTurn(s.dispatched, s.ready, t.dispatched, t.ready, k)
  {
    RunGrows(s, steps);
    Shifted(s.dispatched, s.ready, t.dispatched, t.ready, k);
  }

  /** The same for the waiters of a mutex, a condition variable or a thread. */
  lemma WakeOrder(s: Sys, steps: seq<Step>, t: Sys, w: Wid, k: nat)
    requires ValidRun(s, steps) && t == Run(s, steps) && k < |Q(s, w)|
    ensures InTurn(Woken(s, w), Q(s, w), Woken(t, w), Q(t, w), k)
  {
    RunGrows(s, steps);
    assert GrowsAt(s, t, w);
    Shifted(Woken(s, w), Q(s, w), Woken(t, w), Q(t, w), k);
  }
}
