/**
 The user-level thread library as a transition system over any number of CPUs. A CPU enters a section by
 taking the guard, acts, and either leaves by releasing the guard or switches to another context, which
 then lands: it runs the thread handler, finishes what it was parked in, and releases the guard in turn.
 Contexts are numbered in creation order; context `x` has thread id `x + 1`.
 */
module Threads {
  import opened Prelude

  const STACKS: nat := 40                  // stacks in the pool

  /** The wait queues: of a mutex, of a condition variable, of the threads that join a thread. */
  datatype Wid = OnMutex(m: nat) | OnCv(c: nat) | OnExit(t: nat)

  /** Where a context resumes (the first five) or what it is about to do. */
  datatype Pc =
    | Fresh                                // at the start of the wrapper function
    | AtLock(m: nat)                       // parked in `privileged_lock`
    | AtWait(c: nat, m: nat)               // parked in `cv::wait`
    | AtJoin(t: nat)
    | AtYield
    | User                                 // in the user's code
    | Relock(m: nat)                       // in `cv::wait`, about to lock the mutex again
    | Making                               // in the constructor, with a stack from the pool
    | Finishing                            // the user's function is over and the joiners are awake
    | Marked                               // marked as dead, on its way out

  datatype Loc = OnCpu(c: nat) | InReady | InQueue(w: Wid) | Over(c: nat)

  /** The object through which a thread and its handle share the news of the thread's end. */
  datatype Shared = Shared(byStack: bool, byThread: bool, val: bool, frees: nat)

  /** `reclaimed`: stack, context and wait queue have been given back. */
  datatype Thread = Thread(pc: Pc, loc: Loc, shared: Shared, reclaimed: bool)

  datatype Op =
    | Lock(m: nat) | Unlock(m: nat) | Wait(c: nat, m: nat) | Signal(c: nat) | Broadcast(c: nat)
    | Join(t: nat) | Yield | Create | Finish | Quit | Dispatch

  /** Between a switch and the release of the guard, the thread handler runs first (`Landing`), then the rest of
      what the context was in (`Resuming`). */
  datatype Phase = Out | Inside(op: Op) | Landing | Resuming | Leaving

  /** `seat` is the current context, none for the CPU's main context. */
  datatype Cpu = Cpu(seat: Option<nat>, phase: Phase, garbage: Option<nat>)

  /** `owner` is a thread id or 0. The other fields are history: who asked for the lock and who got it, in
      order; the waiter it was handed to; and who holds it, from the holders' own point of view. */
  datatype Mutex = Mutex(locked: bool, owner: nat,
                         arrivals: seq<nat>, acquired: seq<nat>, grantee: Option<nat>, holders: set<nat>)

  datatype Sys = Sys(
    guard: Option<nat>,
    cpus: seq<Cpu>,
    threads: seq<Thread>,
    ready: seq<nat>,
    dispatched: seq<nat>,                  // history: what was taken from the ready queue
    queues: map<Wid, seq<nat>>,
    woken: map<Wid, seq<nat>>,             // history: what was taken from each wait queue
    mutexes: map<nat, Mutex>,
    total: nat,                            // total_threads
    out: nat)                              // stacks taken from the pool

  // ----- reading the state -----

  function Q(s: Sys, w: Wid): seq<nat> {
    if w in s.queues then s.queues[w] else []
  }

  function Woken(s: Sys, w: Wid): seq<nat> {
    if w in s.woken then s.woken[w] else []
  }

  function M(s: Sys, m: nat): Mutex {
    if m in s.mutexes then s.mutexes[m] else Mutex(false, 0, [], [], None, {})
  }

  predicate Is(s: Sys, x: nat, pc: Pc) {
    x < |s.threads| && s.threads[x].pc == pc
  }

  predicate At(s: Sys, x: nat, loc: Loc) {
    x < |s.threads| && s.threads[x].loc == loc
  }

  predicate Seated(s: Sys, c: nat, x: nat) {
    c < |s.cpus| && s.cpus[c].seat == Some(x)
  }

  // ----- small changes -----

  function Put(s: Sys, x: nat, pc: Pc, loc: Loc): Sys {
    if x < |s.threads| then s.(threads := s.threads[x := s.threads[x].(pc := pc, loc := loc)]) else s
  }

  function SetPc(s: Sys, x: nat, pc: Pc): Sys {
    if x < |s.threads| then Put(s, x, pc, s.threads[x].loc) else s
  }

  function SetLoc(s: Sys, x: nat, loc: Loc): Sys {
    if x < |s.threads| then Put(s, x, s.threads[x].pc, loc) else s
  }

  function SetPhase(s: Sys, c: nat, phase: Phase): Sys {
    if c < |s.cpus| then s.(cpus := s.cpus[c := s.cpus[c].(phase := phase)]) else s
  }

  function SetMutex(s: Sys, m: nat, v: Mutex): Sys {
    s.(mutexes := s.mutexes[m := v])
  }

  // ----- the scheduler -----

  function PutInReady(s: Sys, x: nat): Sys {
    SetLoc(s, x, InReady).(ready := s.ready + [x])
  }

  /** The front of the ready queue, or the main context, takes the CPU. */
  function Switch(s: Sys, c: nat): Sys {
    if c >= |s.cpus| then s
    else if s.ready == [] then s.(cpus := s.cpus[c := s.cpus[c].(seat := None, phase := Landing)])
    else
      var y := s.ready[0];
      SetLoc(s, y, OnCpu(c)).(ready := s.ready[1..], dispatched := s.dispatched + [y],
                              cpus := s.cpus[c := s.cpus[c].(seat := Some(y), phase := Landing)])
  }

  /** `waitSelfOn`: context `x` on CPU `c` joins a wait queue, to resume at `pc`. */
  function WaitSelf(s: Sys, c: nat, x: nat, w: Wid, pc: Pc): Sys {
    Switch(Enqueue(s, x, w, pc), c)
  }

  function Enqueue(s: Sys, x: nat, w: Wid, pc: Pc): Sys {
    Put(s, x, pc, InQueue(w)).(queues := s.queues[w := Q(s, w) + [x]])
  }

  function WakeOne(s: Sys, w: Wid): Sys {
    if Q(s, w) == [] then s
    else
      var x := Q(s, w)[0];
      PutInReady(s, x).(queues := s.queues[w := Q(s, w)[1..]], woken := s.woken[w := Woken(s, w) + [x]])
  }

  function WakeAll(s: Sys, w: Wid): Sys
    decreases |Q(s, w)|
  {
    if Q(s, w) == [] then s else WakeAll(WakeOne(s, w), w)
  }

  // ----- the mutex -----

  function Arrive(s: Sys, m: nat, x: nat): Sys {
    SetMutex(s, m, M(s, m).(arrivals := M(s, m).arrivals + [x]))
  }

  function Acquire(s: Sys, m: nat, x: nat): Sys {
    SetPc(SetMutex(s, m, M(s, m).(locked := true, owner := x + 1, acquired := M(s, m).acquired + [x],
                                  grantee := None, holders := M(s, m).holders + {x})), x, User)
  }

  /** `privileged_unlock` by the owner: with waiters, the oldest is woken and the lock stays in use. */
  function Release(s: Sys, m: nat, x: nat): Sys {
    var v := M(s, m).(locked := false, owner := 0, holders := M(s, m).holders - {x});
    var q := Q(s, OnMutex(m));
    if q == [] then SetMutex(s, m, v)
    else WakeOne(SetMutex(s, m, v.(locked := true, grantee := Some(q[0]))), OnMutex(m))
  }

  // ----- the guarded sections -----

  /** What the context on CPU `c` may begin: what its code does next. */
  predicate Allowed(s: Sys, x: nat, op: Op) {
    x < |s.threads| &&
    match s.threads[x].pc
    case User => op.Lock? || op.Unlock? || op.Wait? || op.Signal? || op.Broadcast? || op.Yield? || op.Finish?
                 || (op.Join? && op.t < |s.threads|)
    case Relock(m) => op == Lock(m)
    case Making => op.Create?
    case Marked => op.Quit?
    case _ => false
  }

  function ActLock(s: Sys, c: nat, x: nat, m: nat): Sys {
    var t := Arrive(s, m, x);
    if M(s, m).locked then WaitSelf(t, c, x, OnMutex(m), AtLock(m)) else Acquire(SetPhase(t, c, Leaving), m, x)
  }

  /** Throws, with no other effect, when the caller is not the owner. */
  function ActUnlock(s: Sys, c: nat, x: nat, m: nat): Sys {
    var t := SetPhase(s, c, Leaving);
    if M(s, m).owner != x + 1 then t else Release(t, m, x)
  }

  function ActWait(s: Sys, c: nat, x: nat, v: nat, m: nat): Sys {
    if M(s, m).owner != x + 1 then SetPhase(s, c, Leaving)
    else WaitSelf(Release(s, m, x), c, x, OnCv(v), AtWait(v, m))
  }

  function ActJoin(s: Sys, c: nat, x: nat, t: nat): Sys {
    if t < |s.threads| && !s.threads[t].shared.val then WaitSelf(s, c, x, OnExit(t), AtJoin(t))
    else SetPhase(s, c, Leaving)
  }

  function ActYield(s: Sys, c: nat, x: nat): Sys {
    if s.ready == [] then SetPhase(s, c, Leaving) else Switch(PutInReady(SetPc(s, x, AtYield), x), c)
  }

  function ActCreate(s: Sys, c: nat, x: nat): Sys {
    var t := SetPc(SetPhase(s, c, Leaving), x, User);
    t.(threads := t.threads + [Thread(Fresh, InReady, Shared(true, true, false, 0), false)],
       ready := t.ready + [|t.threads|], total := t.total + 1)
  }

  function ActFinish(s: Sys, c: nat, x: nat): Sys {
    SetPc(WakeAll(SetPhase(s, c, Leaving), OnExit(x)), x, Finishing)
  }

  function ActQuit(s: Sys, c: nat, x: nat): Sys {
    Switch(SetLoc(s, x, Over(c)), c)
  }

  function ActDispatch(s: Sys, c: nat): Sys {
    if s.ready == [] then SetPhase(s, c, Leaving) else Switch(s, c)
  }

  function AfterAct(s: Sys, c: nat, x: nat, op: Op): Sys {
    match op
    case Lock(m) => ActLock(s, c, x, m)
    case Unlock(m) => ActUnlock(s, c, x, m)
    case Wait(v, m) => ActWait(s, c, x, v, m)
    case Signal(v) => WakeOne(SetPhase(s, c, Leaving), OnCv(v))
    case Broadcast(v) => WakeAll(SetPhase(s, c, Leaving), OnCv(v))
    case Join(t) => ActJoin(s, c, x, t)
    case Yield => ActYield(s, c, x)
    case Create => ActCreate(s, c, x)
    case Finish => ActFinish(s, c, x)
    case Quit => ActQuit(s, c, x)
    case Dispatch => ActDispatch(s, c)
  }

  // ----- after a switch -----

  /** `thread_handler`: reclaim the thread that left this CPU for good, if there is one. */
  function Reclaim(s: Sys, c: nat): Sys {
    if c < |s.cpus| && s.cpus[c].garbage.Some? then
      var g := s.cpus[c].garbage.value;
      var t := s.(cpus := s.cpus[c := s.cpus[c].(garbage := None)],
                  total := if s.total > 0 then s.total - 1 else 0, out := if s.out > 0 then s.out - 1 else 0);
      if g < |s.threads| then t.(threads := t.threads[g := t.threads[g].(reclaimed := true)]) else t
    else s
  }

  /** What the resumed context does before it releases the guard. */
  function Resume(s: Sys, x: nat): Sys {
    if x >= |s.threads| then s
    else match s.threads[x].pc
      case AtLock(m) => Acquire(s, m, x)
      case AtWait(_, m) => SetPc(s, x, Relock(m))
      case _ => SetPc(s, x, User)
  }

  function AfterLand(s: Sys, c: nat): Sys {
    SetPhase(Reclaim(s, c), c, Resuming)
  }

  function AfterResume(s: Sys, c: nat): Sys {
    var t := SetPhase(s, c, Leaving);
    if c < |s.cpus| && s.cpus[c].seat.Some? then Resume(t, s.cpus[c].seat.value) else t
  }

  // ----- outside the guard -----

  function AfterMark(s: Sys, c: nat, x: nat): Sys {
    if x < |s.threads| && c < |s.cpus| then
      var h := s.threads[x].shared;
      s.(cpus := s.cpus[c := s.cpus[c].(garbage := Some(x))],
         threads := s.threads[x := s.threads[x].(
             pc := Marked,
             shared := Shared(false, h.byThread, true, if h.byThread then h.frees else h.frees + 1))])
    else s
  }

  /** The destructor of the handle of thread `t`. */
  function AfterDrop(s: Sys, t: nat): Sys {
    if t < |s.threads| then
      var h := s.threads[t].shared;
      s.(threads := s.threads[t := s.threads[t].(
             shared := Shared(h.byStack, false, h.val, if h.byStack then h.frees else h.frees + 1))])
    else s
  }

  function AfterMake(s: Sys, x: nat): Sys {
    SetPc(s, x, Making).(out := s.out + 1)
  }

  // ----- the transition system -----

  datatype Step =
    | Enter(c: nat, op: Op)
    | Act(c: nat)
    | Land(c: nat)
    | Continue(c: nat)
    | Leave(c: nat)
    | Mark(c: nat)
    | Make(c: nat)
    | Drop(c: nat, t: nat)

  predicate Outside(s: Sys, c: nat, pc: Pc) {
    c < |s.cpus| && s.cpus[c].phase.Out? && s.cpus[c].seat.Some? && Is(s, s.cpus[c].seat.value, pc)
  }

  predicate CanEnter(s: Sys, c: nat, op: Op) {
    && s.guard.None? && c < |s.cpus| && s.cpus[c].phase.Out?
    && (if s.cpus[c].seat.None? then op.Dispatch? else Allowed(s, s.cpus[c].seat.value, op))
    && (op.Join? && op.t < |s.threads| ==> s.threads[op.t].shared.byThread)
  }

  predicate Enabled(s: Sys, st: Step) {
    st.c < |s.cpus| &&
    match st
    case Enter(c, op) => CanEnter(s, c, op)
    case Act(c) => s.cpus[c].phase.Inside?
    case Land(c) => s.cpus[c].phase.Landing?
    case Continue(c) => s.cpus[c].phase.Resuming?
    case Leave(c) => s.cpus[c].phase.Leaving?
    case Mark(c) => Outside(s, c, Finishing)
    case Make(c) => Outside(s, c, User) && s.out < STACKS
    case Drop(c, t) => Outside(s, c, User) && t < |s.threads| && s.threads[t].shared.byThread
  }

  function SeatOf(s: Sys, c: nat): nat {
    if c < |s.cpus| && s.cpus[c].seat.Some? then s.cpus[c].seat.value else 0
  }

  function OpOf(s: Sys, c: nat): Op {
    if c < |s.cpus| && s.cpus[c].phase.Inside? then s.cpus[c].phase.op else Dispatch
  }

  function Next(s: Sys, st: Step): Sys {
    match st
    case Enter(c, op) => SetPhase(s, c, Inside(op)).(guard := Some(c))
    case Act(c) => AfterAct(s, c, SeatOf(s, c), OpOf(s, c))
    case Land(c) => AfterLand(s, c)
    case Continue(c) => AfterResume(s, c)
    case Leave(c) => SetPhase(s, c, Out).(guard := None)
    case Mark(c) => AfterMark(s, c, SeatOf(s, c))
    case Make(c) => AfterMake(s, SeatOf(s, c))
    case Drop(c, t) => AfterDrop(s, t)
  }

  /** The CPUs idle in their main contexts, with one thread made by the first of them and ready. */
  function InitSys(cpus: nat): Sys {
    Sys(None, seq(cpus, _ => Cpu(None, Out, None)),
        [Thread(Fresh, InReady, Shared(true, false, false, 0), false)], [0], [], map[], map[], map[], 1, 1)
  }

  // ----- runs -----

  ghost predicate ValidRun(s: Sys, steps: seq<Step>)
    decreases |steps|
  {
    steps == [] || (Enabled(s, steps[0]) && ValidRun(Next(s, steps[0]), steps[1..]))
  }

  function Run(s: Sys, steps: seq<Step>): Sys
    decreases |steps|
  {
    if steps == [] then s else Run(Next(s, steps[0]), steps[1..])
  }

  // ----- the invariant: the guard's holder is inside a section, and threads are where they say -----

  /** Resume points of contexts that are not running. */
  predicate Parked(pc: Pc) {
    pc.Fresh? || pc.AtLock? || pc.AtWait? || pc.AtJoin? || pc.AtYield?
  }

  predicate Arriving(phase: Phase) {
    phase.Landing? || phase.Resuming?
  }

  /** The resume point of a context in wait queue `w`. */
  predicate Fits(w: Wid, pc: Pc) {
    match w
    case OnMutex(m) => pc == AtLock(m)
    case OnCv(c) => pc.AtWait? && pc.c == c
    case OnExit(t) => pc == AtJoin(t)
  }

  ghost predicate GuardOk(s: Sys) {
    && (s.guard.Some? ==> s.guard.value < |s.cpus|)
    && forall c :: 0 <= c < |s.cpus| ==> (s.cpus[c].phase.Out? <==> s.guard != Some(c))
  }

  ghost predicate SeatOk(s: Sys, c: nat)
    requires c < |s.cpus|
  {
    var cpu := s.cpus[c];
    && (cpu.seat.Some? ==> At(s, cpu.seat.value, OnCpu(c)))
    && (cpu.phase.Inside? ==>
          if cpu.seat.None? then cpu.phase.op.Dispatch? else Allowed(s, cpu.seat.value, cpu.phase.op))
  }

  /** `hole` is a CPU whose current context has just been put elsewhere, before the switch. */
  ghost predicate ThreadOk(s: Sys, x: nat, hole: Option<nat>)
    requires x < |s.threads|
  {
    var t := s.threads[x];
    match t.loc
    case OnCpu(c) => hole != Some(c) && Seated(s, c, x) && (Arriving(s.cpus[c].phase) <==> Parked(t.pc))
    case InReady => x in s.ready && Parked(t.pc)
    case InQueue(w) => x in Q(s, w) && Fits(w, t.pc)
    case Over(c) => c < |s.cpus| && t.pc == Marked
  }

  ghost predicate OnList(s: Sys, q: seq<nat>, loc: Loc) {
    && (forall i :: 0 <= i < |q| ==> At(s, q[i], loc))
    && (forall i, j :: 0 <= i < j < |q| ==> q[i] != q[j])
  }

  ghost predicate QueueOk(s: Sys, w: Wid) {
    OnList(s, Q(s, w), InQueue(w))
  }

  ghost predicate Places(s: Sys, hole: Option<nat>) {
    && OnList(s, s.ready, InReady)
    && (forall w :: QueueOk(s, w))
    && (forall c :: 0 <= c < |s.cpus| && hole != Some(c) ==> SeatOk(s, c))
    && (forall x :: 0 <= x < |s.threads| ==> ThreadOk(s, x, hole))
  }

  // ----- lists -----

  lemma ListAppend(s: Sys, q: seq<nat>, loc: Loc, x: nat)
    requires OnList(s, q, loc) && At(s, x, loc) && x !in q
    ensures OnList(s, q + [x], loc)
  {
  }

  /** The members of a list stay when threads outside it change. */
  lemma ListSame(s: Sys, t: Sys, q: seq<nat>, loc: Loc)
    requires OnList(s, q, loc) && forall y :: y in q ==> (At(s, y, loc) ==> At(t, y, loc))
    ensures OnList(t, q, loc)
  {
  }

  lemma InTail(q: seq<nat>, y: nat)
    requires y in q && q[0] != y
    ensures y in q[1..]
  {
  }

  // ----- leaving a CPU -----

  /** The current context of CPU `c` goes to the end of a list, or is over; the CPU is left empty. */
  lemma EnqueuePlaces(s: Sys, c: nat, x: nat, w: Wid, pc: Pc)
    requires Places(s, None) && Seated(s, c, x) && Fits(w, pc)
    ensures Places(Enqueue(s, x, w, pc), Some(c))
  {
    assert SeatOk(s, c);
    var t := Enqueue(s, x, w, pc);
    forall v ensures QueueOk(t, v) {
      assert QueueOk(s, v);
      ListSame(s, t, Q(s, v), InQueue(v));
      if v == w { ListAppend(t, Q(s, w), InQueue(w), x); }
    }
    ListSame(s, t, s.ready, InReady);
    forall d | 0 <= d < |t.cpus| && d != c ensures SeatOk(t, d) { assert SeatOk(s, d); }
    forall y | 0 <= y < |t.threads| ensures ThreadOk(t, y, Some(c)) { assert ThreadOk(s, y, None); }
  }

  lemma YieldPlaces(s: Sys, c: nat, x: nat)
    requires Places(s, None) && Seated(s, c, x)
    ensures Places(PutInReady(SetPc(s, x, AtYield), x), Some(c))
  {
    assert SeatOk(s, c);
    var t := PutInReady(SetPc(s, x, AtYield), x);
    forall v ensures QueueOk(t, v) {
      assert QueueOk(s, v);
      ListSame(s, t, Q(s, v), InQueue(v));
    }
    ListSame(s, t, s.ready, InReady);
    ListAppend(t, s.ready, InReady, x);
    forall d | 0 <= d < |t.cpus| && d != c ensures SeatOk(t, d) { assert SeatOk(s, d); }
    forall y | 0 <= y < |t.threads| ensures ThreadOk(t, y, Some(c)) { assert ThreadOk(s, y, None); }
  }

  lemma QuitPlaces(s: Sys, c: nat, x: nat)
    requires Places(s, None) && Seated(s, c, x) && Is(s, x, Marked)
    ensures Places(SetLoc(s, x, Over(c)), Some(c))
  {
    assert SeatOk(s, c);
    var t := SetLoc(s, x, Over(c));
    forall v ensures QueueOk(t, v) {
      assert QueueOk(s, v);
      ListSame(s, t, Q(s, v), InQueue(v));
    }
    ListSame(s, t, s.ready, InReady);
    forall d | 0 <= d < |t.cpus| && d != c ensures SeatOk(t, d) { assert SeatOk(s, d); }
    forall y | 0 <= y < |t.threads| ensures ThreadOk(t, y, Some(c)) { assert ThreadOk(s, y, None); }
  }

  /** A CPU in its main context is as good as empty. */
  lemma MainPlaces(s: Sys, c: nat)
    requires Places(s, None) && c < |s.cpus| && s.cpus[c].seat.None?
    ensures Places(s, Some(c))
  {
    forall y | 0 <= y < |s.threads| ensures ThreadOk(s, y, Some(c)) { assert ThreadOk(s, y, None); }
  }

  lemma SwitchPlaces(s: Sys, c: nat)
    requires Places(s, Some(c)) && c < |s.cpus|
    ensures Places(Switch(s, c), None)
  {
    var t := Switch(s, c);
    if s.ready != [] {
      assert At(s, s.ready[0], InReady);
      assert forall i :: 0 < i < |s.ready| ==> s.ready[i] != s.ready[0];
    }
    assert OnList(t, t.ready, InReady);
    forall v ensures QueueOk(t, v) {
      assert QueueOk(s, v);
      ListSame(s, t, Q(s, v), InQueue(v));
    }
    forall d | 0 <= d < |t.cpus| ensures SeatOk(t, d) {
      if d != c { assert SeatOk(s, d); }
    }
    forall y | 0 <= y < |t.threads| ensures ThreadOk(t, y, None) {
      assert ThreadOk(s, y, Some(c));
      if s.threads[y].loc == InReady && y != s.ready[0] { InTail(s.ready, y); }
    }
  }

  // ----- waking -----

  lemma WakeOnePlaces(s: Sys, w: Wid, hole: Option<nat>)
    requires Places(s, hole)
    ensures Places(WakeOne(s, w), hole)
  {
    assert QueueOk(s, w);
    if Q(s, w) != [] {
      var x := Q(s, w)[0];
      assert At(s, x, InQueue(w)) && ThreadOk(s, x, hole);
      var t := WakeOne(s, w);
      forall v ensures QueueOk(t, v) {
        assert QueueOk(s, v);
        if v != w { ListSame(s, t, Q(s, v), InQueue(v)); }
      }
      ListSame(s, t, s.ready, InReady);
      ListAppend(t, s.ready, InReady, x);
      forall d | 0 <= d < |t.cpus| && hole != Some(d) ensures SeatOk(t, d) { assert SeatOk(s, d); }
      forall y | 0 <= y < |t.threads| ensures ThreadOk(t, y, hole) {
        assert ThreadOk(s, y, hole);
        if y != x && y in Q(s, w) { InTail(Q(s, w), y); }
      }
    }
  }

  lemma {:induction false} WakeAllPlaces(s: Sys, w: Wid)
    requires Places(s, None)
    ensures Places(WakeAll(s, w), None)
    decreases |Q(s, w)|
  {
    if Q(s, w) != [] {
      WakeOnePlaces(s, w, None);
      WakeAllPlaces(WakeOne(s, w), w);
    }
  }

  // ----- staying on a CPU -----

  /** The phase of CPU `c` and the program point of its current context change. */
  lemma StayPlaces(s: Sys, t: Sys, c: nat, x: nat)
    requires Places(s, None) && Seated(s, c, x)
    requires t.ready == s.ready && t.queues == s.queues && |t.cpus| == |s.cpus| && |t.threads| == |s.threads|
    requires forall d :: 0 <= d < |s.cpus| && d != c ==> t.cpus[d] == s.cpus[d]
    requires forall y :: 0 <= y < |s.threads| ==>
               t.threads[y].loc == s.threads[y].loc && (y == x || t.threads[y].pc == s.threads[y].pc)
    requires Seated(t, c, x) && !Arriving(t.cpus[c].phase) && x < |t.threads| && !Parked(t.threads[x].pc)
    requires t.cpus[c].phase.Inside? ==> Allowed(t, x, t.cpus[c].phase.op)
    ensures Places(t, None)
  {
    assert SeatOk(s, c);
    ListSame(s, t, s.ready, InReady);
    forall v ensures QueueOk(t, v) {
      assert QueueOk(s, v);
      ListSame(s, t, Q(s, v), InQueue(v));
    }
    forall d | 0 <= d < |t.cpus| ensures SeatOk(t, d) { assert SeatOk(s, d); }
    forall y | 0 <= y < |t.threads| ensures ThreadOk(t, y, None) { assert ThreadOk(s, y, None); }
  }

  /** Nothing about places changes, except the phase of a CPU that is in its main context. */
  lemma IdlePlaces(s: Sys, t: Sys, c: nat)
    requires Places(s, None) && c < |s.cpus|
    requires t.ready == s.ready && t.queues == s.queues && |t.cpus| == |s.cpus| && |t.threads| == |s.threads|
    requires forall d :: 0 <= d < |s.cpus| ==> t.cpus[d].seat == s.cpus[d].seat
    requires forall d :: 0 <= d < |s.cpus| && (d != c || s.cpus[c].seat.Some?) ==>
               t.cpus[d].phase == s.cpus[d].phase || (Arriving(t.cpus[d].phase) && Arriving(s.cpus[d].phase))
    requires s.cpus[c].seat.None? && t.cpus[c].phase.Inside? ==> t.cpus[c].phase.op.Dispatch?
    requires forall y :: 0 <= y < |s.threads| ==>
               t.threads[y].loc == s.threads[y].loc && t.threads[y].pc == s.threads[y].pc
    ensures Places(t, None)
  {
    ListSame(s, t, s.ready, InReady);
    forall v ensures QueueOk(t, v) {
      assert QueueOk(s, v);
      ListSame(s, t, Q(s, v), InQueue(v));
    }
    forall d | 0 <= d < |t.cpus| ensures SeatOk(t, d) { assert SeatOk(s, d); }
    forall y | 0 <= y < |t.threads| ensures ThreadOk(t, y, None) { assert ThreadOk(s, y, None); }
  }

  lemma SpawnPlaces(s: Sys, t: Sys, h: Thread)
    requires Places(s, None) && h.pc.Fresh? && h.loc == InReady
    requires t.threads == s.threads + [h] && t.ready == s.ready + [|s.threads|]
    requires t.queues == s.queues && t.cpus == s.cpus
    ensures Places(t, None)
  {
    ListSame(s, t, s.ready, InReady);
    ListAppend(t, s.ready, InReady, |s.threads|);
    forall v ensures QueueOk(t, v) {
      assert QueueOk(s, v);
      ListSame(s, t, Q(s, v), InQueue(v));
    }
    forall d | 0 <= d < |t.cpus| ensures SeatOk(t, d) { assert SeatOk(s, d); }
    forall y | 0 <= y < |t.threads| ensures ThreadOk(t, y, None) {
      if y < |s.threads| { assert ThreadOk(s, y, None); }
    }
  }

  // ----- each step keeps the places -----

  /** What `Act` and `Continue` need to know of the CPU they run on. */
  lemma OnCpuNow(s: Sys, c: nat)
    requires Places(s, None) && c < |s.cpus| && s.cpus[c].seat.Some?
    ensures var x := SeatOf(s, c); Seated(s, c, x) && At(s, x, OnCpu(c))
                                   && (Arriving(s.cpus[c].phase) <==> Parked(s.threads[x].pc))
    ensures s.cpus[c].phase.Inside? ==> Allowed(s, SeatOf(s, c), s.cpus[c].phase.op)
  {
    assert SeatOk(s, c);
    assert ThreadOk(s, SeatOf(s, c), None);
  }

  lemma WaitSelfPlaces(s: Sys, c: nat, x: nat, w: Wid, pc: Pc)
    requires Places(s, None) && Seated(s, c, x) && Fits(w, pc)
    ensures Places(WaitSelf(s, c, x, w, pc), None)
  {
    EnqueuePlaces(s, c, x, w, pc);
    SwitchPlaces(Enqueue(s, x, w, pc), c);
  }

  /** Mutex fields do not matter for places. */
  lemma MutexPlaces(s: Sys, t: Sys, hole: Option<nat>)
    requires Places(s, hole)
    requires t.ready == s.ready && t.queues == s.queues && t.cpus == s.cpus && t.threads == s.threads
    ensures Places(t, hole)
  {
    forall v ensures QueueOk(t, v) {
      assert QueueOk(s, v);
      ListSame(s, t, Q(s, v), InQueue(v));
    }
    forall d | 0 <= d < |t.cpus| && hole != Some(d) ensures SeatOk(t, d) { assert SeatOk(s, d); }
    forall y | 0 <= y < |t.threads| ensures ThreadOk(t, y, hole) { assert ThreadOk(s, y, hole); }
  }

  lemma ReleasePlaces(s: Sys, m: nat, x: nat)
    requires Places(s, None)
    ensures Places(Release(s, m, x), None)
  {
    var v := M(s, m).(locked := false, owner := 0, holders := M(s, m).holders - {x});
    var q := Q(s, OnMutex(m));
    MutexPlaces(s, SetMutex(s, m, v), None);
    if q != [] {
      var t := SetMutex(s, m, v.(locked := true, grantee := Some(q[0])));
      MutexPlaces(s, t, None);
      WakeOnePlaces(t, OnMutex(m), None);
    }
  }

  lemma LeavingPlaces(s: Sys, c: nat, x: nat)
    requires Places(s, None) && Seated(s, c, x) && s.cpus[c].phase.Inside?
    ensures Places(SetPhase(s, c, Leaving), None) && Seated(SetPhase(s, c, Leaving), c, x)
  {
    OnCpuNow(s, c);
    StayPlaces(s, SetPhase(s, c, Leaving), c, x);
  }

  lemma ActLockPlaces(s: Sys, c: nat, x: nat, m: nat)
    requires Places(s, None) && Seated(s, c, x) && s.cpus[c].phase.Inside?
    ensures Places(ActLock(s, c, x, m), None)
  {
    var t := Arrive(s, m, x);
    MutexPlaces(s, t, None);
    if M(s, m).locked {
      WaitSelfPlaces(t, c, x, OnMutex(m), AtLock(m));
    } else {
      OnCpuNow(s, c);
      StayPlaces(t, Acquire(SetPhase(t, c, Leaving), m, x), c, x);
    }
  }

  lemma ActWaitPlaces(s: Sys, c: nat, x: nat, v: nat, m: nat)
    requires Places(s, None) && Seated(s, c, x) && s.cpus[c].phase.Inside?
    ensures Places(ActWait(s, c, x, v, m), None)
  {
    LeavingPlaces(s, c, x);
    ReleasePlaces(s, m, x);
    WaitSelfPlaces(Release(s, m, x), c, x, OnCv(v), AtWait(v, m));
  }

  lemma ActUnlockPlaces(s: Sys, c: nat, x: nat, m: nat)
    requires Places(s, None) && Seated(s, c, x) && s.cpus[c].phase.Inside?
    ensures Places(ActUnlock(s, c, x, m), None)
  {
    LeavingPlaces(s, c, x);
    ReleasePlaces(SetPhase(s, c, Leaving), m, x);
  }

  lemma ActCreatePlaces(s: Sys, c: nat, x: nat)
    requires Places(s, None) && Seated(s, c, x) && s.cpus[c].phase.Inside?
    ensures Places(ActCreate(s, c, x), None)
  {
    OnCpuNow(s, c);
    var t := SetPc(SetPhase(s, c, Leaving), x, User);
    StayPlaces(s, t, c, x);
    SpawnPlaces(t, ActCreate(s, c, x), Thread(Fresh, InReady, Shared(true, true, false, 0), false));
  }

  lemma ActFinishPlaces(s: Sys, c: nat, x: nat)
    requires Places(s, None) && Seated(s, c, x) && s.cpus[c].phase.Inside?
    ensures Places(ActFinish(s, c, x), None)
  {
    LeavingPlaces(s, c, x);
    var t := SetPhase(s, c, Leaving);
    WakeAllPlaces(t, OnExit(x));
    WakeAllKeeps(t, OnExit(x));
    OnCpuNow(s, c);
    var u := WakeAll(t, OnExit(x));
    SeatStays(t, u, c, x);
    StayPlaces(u, SetPc(u, x, Finishing), c, x);
  }

  lemma SeatStays(s: Sys, t: Sys, c: nat, x: nat)
    requires Seated(s, c, x) && t.cpus == s.cpus
    ensures Seated(t, c, x)
  {
  }

  /** Waking moves all waiters, in order, and nothing else. */
  lemma {:induction false} WakeAllMoves(s: Sys, w: Wid)
    ensures var t := WakeAll(s, w);
            && t.ready == s.ready + Q(s, w) && Q(t, w) == [] && Woken(t, w) == Woken(s, w) + Q(s, w)
            && (forall v :: v != w ==> Q(t, v) == Q(s, v) && Woken(t, v) == Woken(s, v))
    decreases |Q(s, w)|
  {
    if Q(s, w) != [] { WakeAllMoves(WakeOne(s, w), w); }
  }

  lemma {:induction false} WakeAllKeeps(s: Sys, w: Wid)
    ensures var t := WakeAll(s, w);
            && t == s.(threads := t.threads, ready := t.ready, queues := t.queues, woken := t.woken)
            && |t.threads| == |s.threads|
            && (forall y :: 0 <= y < |s.threads| ==>
                  t.threads[y] == s.threads[y] || (y in Q(s, w) && t.threads[y] == s.threads[y].(loc := InReady)))
    decreases |Q(s, w)|
  {
    if Q(s, w) != [] { WakeAllKeeps(WakeOne(s, w), w); }
  }

  lemma ActPlaces(s: Sys, c: nat)
    requires Places(s, None) && c < |s.cpus| && s.cpus[c].phase.Inside? && s.cpus[c].seat.Some?
    ensures Places(AfterAct(s, c, SeatOf(s, c), s.cpus[c].phase.op), None)
  {
    OnCpuNow(s, c);
    var x := SeatOf(s, c);
    match s.cpus[c].phase.op {
      case Lock(m) => ActLockPlaces(s, c, x, m);
      case Unlock(m) => ActUnlockPlaces(s, c, x, m);
      case Wait(v, m) => ActWaitPlaces(s, c, x, v, m);
      case Signal(v) =>
        LeavingPlaces(s, c, x);
        WakeOnePlaces(SetPhase(s, c, Leaving), OnCv(v), None);
      case Broadcast(v) =>
        LeavingPlaces(s, c, x);
        WakeAllPlaces(SetPhase(s, c, Leaving), OnCv(v));
      case Join(t) =>
        LeavingPlaces(s, c, x);
        WaitSelfPlaces(s, c, x, OnExit(t), AtJoin(t));
      case Yield =>
        LeavingPlaces(s, c, x);
        YieldPlaces(s, c, x);
        SwitchPlaces(PutInReady(SetPc(s, x, AtYield), x), c);
      case Create => ActCreatePlaces(s, c, x);
      case Finish => ActFinishPlaces(s, c, x);
      case Quit =>
        QuitPlaces(s, c, x);
        SwitchPlaces(SetLoc(s, x, Over(c)), c);
      case Dispatch =>
    }
  }

  lemma DispatchPlaces(s: Sys, c: nat)
    requires Places(s, None) && c < |s.cpus| && s.cpus[c].seat.None?
    ensures Places(ActDispatch(s, c), None)
  {
    MainPlaces(s, c);
    if s.ready == [] { IdlePlaces(s, SetPhase(s, c, Leaving), c); } else { SwitchPlaces(s, c); }
  }

  lemma ReclaimPlaces(s: Sys, c: nat)
    requires Places(s, None) && c < |s.cpus| && !s.cpus[c].phase.Inside?
    ensures Places(Reclaim(s, c), None)
    ensures |Reclaim(s, c).cpus| == |s.cpus| && Reclaim(s, c).cpus[c] == s.cpus[c].(garbage := None)
  {
    IdlePlaces(s, Reclaim(s, c), c);
  }

  /** Resuming changes where the context is in its code, and perhaps a mutex. */
  lemma ResumeKeeps(s: Sys, x: nat)
    requires x < |s.threads|
    ensures var t := Resume(s, x);
            && t == s.(threads := t.threads, mutexes := t.mutexes)
            && t.threads == s.threads[x := s.threads[x].(pc := t.threads[x].pc)]
            && (match s.threads[x].pc
                case AtWait(_, m) => t.threads[x].pc == Relock(m)
                case _ => t.threads[x].pc == User)
  {
  }

  function ResumedPc(pc: Pc): Pc {
    match pc
    case AtWait(_, m) => Relock(m)
    case _ => User
  }

  /** Resuming moves no thread, and only the current context goes on in its code. */
  lemma ResumeThreads(s: Sys, c: nat)
    requires c < |s.cpus|
    ensures var t := AfterResume(s, c);
            && |t.threads| == |s.threads|
            && (forall y: nat | y < |s.threads| :: t.threads[y].loc == s.threads[y].loc)
            && (forall y: nat | y < |s.threads| :: t.threads[y].pc ==
                  if Seated(s, c, y) then ResumedPc(s.threads[y].pc) else s.threads[y].pc)
  {
    var r := SetPhase(s, c, Leaving);
    if s.cpus[c].seat.Some? && SeatOf(s, c) < |r.threads| { ResumeKeeps(r, SeatOf(s, c)); }
  }

  lemma ReclaimThreads(s: Sys, c: nat)
    ensures |Reclaim(s, c).threads| == |s.threads|
    ensures forall y: nat | y < |s.threads| ::
              Reclaim(s, c).threads[y] == s.threads[y].(reclaimed := Reclaim(s, c).threads[y].reclaimed)
  {
  }

  lemma ResumePlaces(s: Sys, c: nat, x: nat)
    requires Places(s, None) && Seated(s, c, x) && !s.cpus[c].phase.Inside?
    ensures Places(Resume(SetPhase(s, c, Leaving), x), None)
  {
    OnCpuNow(s, c);
    ResumeKeeps(SetPhase(s, c, Leaving), x);
    StayPlaces(s, Resume(SetPhase(s, c, Leaving), x), c, x);
  }

  lemma LandPlaces(s: Sys, c: nat)
    requires Places(s, None) && c < |s.cpus| && s.cpus[c].phase.Landing?
    ensures Places(AfterLand(s, c), None)
  {
    ReclaimPlaces(s, c);
    IdlePlaces(Reclaim(s, c), AfterLand(s, c), c);
  }

  lemma ContinuePlaces(s: Sys, c: nat)
    requires Places(s, None) && c < |s.cpus| && s.cpus[c].phase.Resuming?
    ensures Places(AfterResume(s, c), None)
  {
    if s.cpus[c].seat.None? {
      IdlePlaces(s, SetPhase(s, c, Leaving), c);
    } else {
      ResumePlaces(s, c, SeatOf(s, c));
    }
  }

  lemma OtherPlaces(s: Sys, st: Step)
    requires Places(s, None) && Enabled(s, st) && (st.Enter? || st.Leave? || st.Mark? || st.Make? || st.Drop?)
    ensures Places(Next(s, st), None)
  {
    var c := st.c;
    if s.cpus[c].seat.Some? { OnCpuNow(s, c); }
    if st.Drop? || s.cpus[c].seat.None? { IdlePlaces(s, Next(s, st), c); }
    else { StayPlaces(s, Next(s, st), c, SeatOf(s, c)); }
  }

  lemma StepPlaces(s: Sys, st: Step)
    requires Places(s, None) && Enabled(s, st)
    ensures Places(Next(s, st), None)
  {
    if st.Act? {
      assert SeatOk(s, st.c);
      if s.cpus[st.c].seat.Some? { ActPlaces(s, st.c); } else { DispatchPlaces(s, st.c); }
    } else if st.Land? {
      LandPlaces(s, st.c);
    } else if st.Continue? {
      ContinuePlaces(s, st.c);
    } else {
      OtherPlaces(s, st);
    }
  }

  // ----- the guard -----

  /** A section has come to its end or to a switch on CPU `c`, and touched no other CPU and not the guard. */
  ghost predicate Moved(s: Sys, t: Sys, c: nat) {
    && c < |s.cpus| && |t.cpus| == |s.cpus| && t.guard == s.guard
    && (forall d :: 0 <= d < |s.cpus| && d != c ==> t.cpus[d] == s.cpus[d])
    && (t.cpus[c].phase.Landing? || t.cpus[c].phase.Leaving?) && t.cpus[c].garbage == s.cpus[c].garbage
  }

  lemma SwitchMoved(s: Sys, t: Sys, c: nat)
    requires c < |s.cpus| && t.cpus == s.cpus && t.guard == s.guard
    ensures Moved(s, Switch(t, c), c)
  {
  }

  lemma ReleaseKeeps(s: Sys, m: nat, x: nat)
    ensures Release(s, m, x).cpus == s.cpus && Release(s, m, x).guard == s.guard
  {
  }

  lemma ActMoved(s: Sys, c: nat, x: nat, op: Op)
    requires c < |s.cpus|
    ensures Moved(s, AfterAct(s, c, x, op), c)
  {
    var t := SetPhase(s, c, Leaving);
    match op {
      case Lock(m) => SwitchMoved(s, Enqueue(Arrive(s, m, x), x, OnMutex(m), AtLock(m)), c);
      case Unlock(m) => ReleaseKeeps(t, m, x);
      case Wait(v, m) =>
        ReleaseKeeps(s, m, x);
        SwitchMoved(s, Enqueue(Release(s, m, x), x, OnCv(v), AtWait(v, m)), c);
      case Signal(v) =>
      case Broadcast(v) => WakeAllKeeps(t, OnCv(v));
      case Join(y) => SwitchMoved(s, Enqueue(s, x, OnExit(y), AtJoin(y)), c);
      case Yield => SwitchMoved(s, PutInReady(SetPc(s, x, AtYield), x), c);
      case Create =>
      case Finish => WakeAllKeeps(t, OnExit(x));
      case Quit => SwitchMoved(s, SetLoc(s, x, Over(c)), c);
      case Dispatch => SwitchMoved(s, s, c);
    }
  }

  lemma LandMoved(s: Sys, c: nat)
    requires c < |s.cpus|
    ensures var t := AfterLand(s, c);
            && |t.cpus| == |s.cpus| && t.guard == s.guard
            && (forall d :: 0 <= d < |s.cpus| && d != c ==> t.cpus[d] == s.cpus[d])
            && t.cpus[c] == s.cpus[c].(phase := Resuming, garbage := None)
  {
  }

  lemma ResumeMoved(s: Sys, c: nat)
    requires c < |s.cpus|
    ensures var t := AfterResume(s, c);
            && |t.cpus| == |s.cpus| && t.guard == s.guard
            && (forall d :: 0 <= d < |s.cpus| && d != c ==> t.cpus[d] == s.cpus[d])
            && t.cpus[c] == s.cpus[c].(phase := Leaving)
  {
    var r := SetPhase(s, c, Leaving);
    var x := SeatOf(s, c);
    if x < |r.threads| { ResumeKeeps(r, x); }
  }

  /** The guard changes hands only when a section is entered or left. */
  lemma StepGuard(s: Sys, st: Step)
    requires GuardOk(s) && Enabled(s, st)
    ensures GuardOk(Next(s, st))
    ensures Next(s, st).guard == match st { case Enter(c, _) => Some(c) case Leave(_) => None case _ => s.guard }
  {
    match st {
      case Act(c) => ActMoved(s, c, SeatOf(s, c), OpOf(s, c));
      case Land(c) => LandMoved(s, c);
      case Continue(c) => ResumeMoved(s, c);
      case _ =>
    }
  }
}
