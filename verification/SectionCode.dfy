/**
 The guarded sections as code. Each context has its own remaining instructions, in the order of the source:
 what a call of the library consists of, what a switch leaves to be done on the way back, what a new thread
 starts with, and the scheduling loop of each CPU. Releasing the guard is possible whoever holds it. Control is
 with the code alone; that every run of it is a run of `Threads`, and keeps the guard's discipline, is proved.
 */
module SectionCode {
  import opened Prelude
  import opened Threads
  import T = Threads
  import J = ThreadJoins
  import R = ThreadRuns

  datatype Instr =
    | TakeGuard
    | FreeGuard
    | Handler                              // `thread_handler`
    | Body(op: Op)                         // a guarded section, up to its switch or to its end
    | TakeMutex(m: nat)                    // what is left of `privileged_lock` after a switch
    | MarkDead
    | TakeStack

  /** What a call consists of. The end of a thread calls two sections, and waiting locks the mutex again. */
  function CodeOf(op: Op): seq<Instr> {
    match op
    case Wait(_, m) => [TakeGuard, Body(op), FreeGuard, TakeGuard, Body(Lock(m)), FreeGuard]
    case Finish => [TakeGuard, Body(Finish), FreeGuard, MarkDead, TakeGuard, Body(Quit), FreeGuard]
    case Create => [TakeStack, TakeGuard, Body(Create), FreeGuard]
    case Dispatch => [TakeGuard, Body(Dispatch), FreeGuard, Handler]
    case _ => [TakeGuard, Body(op), FreeGuard]
  }

  const WRAPPER: seq<Instr> := [Handler, FreeGuard]

  /** What the functions that switch have left to do after it; `ctx_set` does not come back. */
  function AfterSwitch(op: Op): seq<Instr> {
    match op
    case Lock(m) => [Handler, TakeMutex(m)]
    case Quit => []
    case _ => [Handler]
  }

  /** The section comes to a switch. */
  predicate Switches(s: Sys, x: nat, op: Op) {
    match op
    case Lock(m) => M(s, m).locked
    case Wait(_, m) => M(s, m).owner == x + 1
    case Join(t) => t < |s.threads| && !s.threads[t].shared.val
    case Yield => s.ready != []
    case Dispatch => s.ready != []
    case Quit => true
    case _ => false
  }

  /** The section throws, after which only the handler of the exception releases the guard. */
  predicate Throws(s: Sys, x: nat, op: Op) {
    (op.Unlock? || op.Wait?) && M(s, op.m).owner != x + 1
  }

  predicate UserCall(op: Op) {
    !op.Quit? && !op.Dispatch?
  }

  /** History, for one CPU: how often the guard was taken and freed, contexts were switched, and the handler
      ran under the guard. */
  datatype Counts = Counts(taken: nat, freed: nat, switched: nat, handled: nat)

  /** `rogue`: history, the guard was freed, or contexts were switched, by a CPU that did not hold it. Phases and
      program points in `s` are kept for the comparison with `Threads`; which instruction comes next, and whether it
      can run, does not depend on them. */
  datatype Machine = Machine(s: Sys, code: seq<seq<Instr>>, main: seq<seq<Instr>>, counts: seq<Counts>, rogue: bool)

  datatype CodeStep = Call(c: nat, op: Op) | Exec(c: nat) | DropHandle(c: nat, t: nat)

  // ----- executing code -----

  /** The remaining instructions of the context that runs on CPU `c`. */
  function Now(f: Machine, c: nat): seq<Instr> {
    if c < |f.s.cpus| && f.s.cpus[c].seat.Some? then
      (if f.s.cpus[c].seat.value < |f.code| then f.code[f.s.cpus[c].seat.value] else [])
    else if c < |f.main| then f.main[c]
    else []
  }

  function SetNow(f: Machine, c: nat, code: seq<Instr>): Machine {
    if c < |f.s.cpus| && f.s.cpus[c].seat.Some? then
      (if f.s.cpus[c].seat.value < |f.code| then f.(code := f.code[f.s.cpus[c].seat.value := code]) else f)
    else if c < |f.main| then f.(main := f.main[c := code])
    else f
  }

  function Plus(n: Counts, k: Counts): Counts {
    Counts(n.taken + k.taken, n.freed + k.freed, n.switched + k.switched, n.handled + k.handled)
  }

  function Tally(f: Machine, c: nat, k: Counts): Machine {
    if c < |f.counts| then f.(counts := f.counts[c := Plus(f.counts[c], k)]) else f
  }

  /** The section that the code is about to enter. */
  function Section(code: seq<Instr>): Op {
    if |code| > 1 && code[1].Body? then code[1].op else Dispatch
  }

  predicate CanExec(f: Machine, c: nat) {
    var code := Now(f, c);
    code != [] &&
    match code[0]
    case TakeGuard =>
      && f.s.guard.None?
      && (Section(code).Join? && Section(code).t < |f.s.threads| ==> f.s.threads[Section(code).t].shared.byThread)
    case TakeStack => f.s.out < STACKS
    case _ => true
  }

  predicate Enabled(f: Machine, st: CodeStep) {
    st.c < |f.s.cpus| &&
    match st
    case Call(c, op) =>
      && Now(f, c) == [] && (op.Join? ==> op.t < |f.s.threads|)
      && (if f.s.cpus[c].seat.Some? then UserCall(op) else op.Dispatch?)
    case Exec(c) => CanExec(f, c)
    case DropHandle(c, t) =>
      Now(f, c) == [] && f.s.cpus[c].seat.Some? && t < |f.s.threads| && f.s.threads[t].shared.byThread
  }

  function ExecTake(f: Machine, c: nat, code: seq<Instr>): Machine
    requires code != []
  {
    Tally(SetNow(f, c, code[1..]), c, Counts(1, 0, 0, 0))
      .(s := SetPhase(f.s, c, Inside(Section(code))).(guard := Some(c)))
  }

  function ExecFree(f: Machine, c: nat, code: seq<Instr>): Machine
    requires code != []
  {
    Tally(SetNow(f, c, code[1..]), c, Counts(0, 1, 0, 0))
      .(s := SetPhase(Settled(f.s, c), c, Out).(guard := None), rogue := f.rogue || f.s.guard != Some(c))
  }

  /** A context that has come back from a switch is past its resume point. */
  function Settled(s: Sys, c: nat): Sys {
    if c < |s.cpus| && s.cpus[c].phase.Resuming? && s.cpus[c].seat.Some? && s.cpus[c].seat.value < |s.threads|
    then SetPc(s, s.cpus[c].seat.value, ResumedPc(s.threads[s.cpus[c].seat.value].pc))
    else s
  }

  function ExecHandler(f: Machine, c: nat, code: seq<Instr>): Machine
    requires code != []
  {
    Tally(SetNow(f, c, code[1..]), c, Counts(0, 0, 0, if f.s.guard == Some(c) then 1 else 0)).(s := Handled(f.s, c))
  }

  function Handled(s: Sys, c: nat): Sys {
    if c < |s.cpus| && s.cpus[c].phase.Landing? then SetPhase(Reclaim(s, c), c, Resuming) else Reclaim(s, c)
  }

  function ExecBody(f: Machine, c: nat, code: seq<Instr>, op: Op): Machine
    requires code != []
  {
    var x := SeatOf(f.s, c);
    var switches := Switches(f.s, x, op);
    var next := if switches then AfterSwitch(op) + code[1..] else if Throws(f.s, x, op) then [FreeGuard] else code[1..];
    var g := Tally(SetNow(f, c, next), c, Counts(0, 0, if switches then 1 else 0, 0));
    g.(s := AfterAct(f.s, c, x, op), code := if op.Create? then g.code + [WRAPPER] else g.code,
       rogue := f.rogue || (switches && f.s.guard != Some(c)))
  }

  function ExecMutex(f: Machine, c: nat, code: seq<Instr>, m: nat): Machine
    requires code != []
  {
    SetNow(f, c, code[1..]).(s := Acquire(SetPhase(f.s, c, Leaving), m, SeatOf(f.s, c)))
  }

  function AfterExec(f: Machine, c: nat): Machine
    requires Now(f, c) != []
  {
    var code := Now(f, c);
    match code[0]
    case TakeGuard => ExecTake(f, c, code)
    case FreeGuard => ExecFree(f, c, code)
    case Handler => ExecHandler(f, c, code)
    case Body(op) => ExecBody(f, c, code, op)
    case TakeMutex(m) => ExecMutex(f, c, code, m)
    case MarkDead => SetNow(f, c, code[1..]).(s := AfterMark(f.s, c, SeatOf(f.s, c)))
    case TakeStack => SetNow(f, c, code[1..]).(s := AfterMake(f.s, SeatOf(f.s, c)))
  }

  function Next(f: Machine, st: CodeStep): Machine
    requires Enabled(f, st)
  {
    match st
    case Call(c, op) => SetNow(f, c, CodeOf(op))
    case Exec(c) => AfterExec(f, c)
    case DropHandle(c, t) => f.(s := AfterDrop(f.s, t))
  }

  function InitMachine(n: nat): Machine {
    Machine(InitSys(n), [WRAPPER], seq(n, _ => []), seq(n, _ => Counts(0, 0, 0, 0)), false)
  }

  // ----- where each context is in its code -----

  /** The instructions a parked context has left. */
  function ParkedCode(pc: Pc): seq<Instr> {
    match pc
    case Fresh => WRAPPER
    case AtLock(m) => [Handler, TakeMutex(m), FreeGuard]
    case AtWait(_, m) => [Handler, FreeGuard] + CodeOf(Lock(m))
    case _ => [Handler, FreeGuard]
  }

  /** What follows the release of the guard. */
  function Onward(pc: Pc): seq<Instr> {
    match pc
    case Relock(m) => CodeOf(Lock(m))
    case Finishing => [MarkDead, TakeGuard, Body(Quit), FreeGuard]
    case _ => []
  }

  ghost predicate IdleCode(code: seq<Instr>, pc: Pc, n: nat) {
    match pc
    case User => code == [] || exists op :: UserCall(op) && (op.Join? ==> op.t < n) && code == CodeOf(op)
    case Making => code == [TakeGuard, Body(Create), FreeGuard]
    case Marked => code == [TakeGuard, Body(Quit), FreeGuard]
    case _ => code == Onward(pc)
  }

  /** What follows the body of a section when it runs to its end. */
  function Tail(op: Op): seq<Instr> {
    match op
    case Wait(_, m) => [FreeGuard] + CodeOf(Lock(m))
    case Finish => [FreeGuard, MarkDead, TakeGuard, Body(Quit), FreeGuard]
    case Dispatch => [FreeGuard, Handler]
    case _ => [FreeGuard]
  }

  ghost predicate RunningCode(code: seq<Instr>, pc: Pc, phase: Phase, n: nat) {
    match phase
    case Out => IdleCode(code, pc, n)
    case Inside(op) => code == [Body(op)] + Tail(op)
    case Landing => code == ParkedCode(pc)
    case Resuming => code == ParkedCode(pc)[1..]
    case Leaving => (pc.User? || pc.Relock? || pc.Finishing?) && code == [FreeGuard] + Onward(pc)
  }

  ghost predicate CodeOk(f: Machine, x: nat)
    requires x < |f.s.threads| && x < |f.code|
  {
    var t := f.s.threads[x];
    match t.loc
    case OnCpu(c) => c < |f.s.cpus| && RunningCode(f.code[x], t.pc, f.s.cpus[c].phase, |f.s.threads|)
    case Over(_) => true
    case _ => f.code[x] == ParkedCode(t.pc)
  }

  /** The scheduling loop of a CPU; while a thread runs there it is parked in its switch. */
  ghost predicate MainOk(cpu: Cpu, code: seq<Instr>) {
    if cpu.seat.Some? then code == [Handler, FreeGuard, Handler]
    else match cpu.phase
      case Out => code == [] || code == CodeOf(Dispatch) || code == [Handler]
      case Inside(op) => code == [Body(op)] + Tail(op)
      case Landing => code == [Handler, FreeGuard, Handler]
      case _ => code == [FreeGuard, Handler]
  }

  ghost predicate CountsOk(s: Sys, c: nat, n: Counts)
    requires c < |s.cpus|
  {
    && n.taken == n.freed + (if s.guard == Some(c) then 1 else 0)
    && n.switched == n.handled + (if s.cpus[c].phase.Landing? then 1 else 0)
  }

  ghost predicate Shape(f: Machine) {
    |f.code| == |f.s.threads| && |f.main| == |f.s.cpus| == |f.counts|
  }

  ghost predicate Coupled(f: Machine) {
    && Shape(f) && !f.rogue
    && (forall x: nat | x < |f.s.threads| :: CodeOk(f, x))
    && (forall c: nat | c < |f.s.cpus| :: MainOk(f.s.cpus[c], f.main[c]) && CountsOk(f.s, c, f.counts[c]))
  }

  ghost predicate Inv(f: Machine) {
    Coupled(f) && R.Inv(f.s)
  }

  // ----- the steps of `Threads` that an instruction stands for -----

  function FreeTrace(s: Sys, c: nat): seq<Step>
    requires c < |s.cpus|
  {
    if s.cpus[c].phase.Resuming? then [Continue(c), Leave(c)] else [Leave(c)]
  }

  function HandlerTrace(s: Sys, c: nat): seq<Step>
    requires c < |s.cpus|
  {
    if s.cpus[c].phase.Landing? then [Land(c)] else []
  }

  function Trace(f: Machine, st: CodeStep): seq<Step>
    requires Enabled(f, st)
  {
    match st
    case Call(_, _) => []
    case DropHandle(c, t) => [Drop(c, t)]
    case Exec(c) =>
      var code := Now(f, c);
      match code[0]
      case TakeGuard => [Enter(c, Section(code))]
      case FreeGuard => FreeTrace(f.s, c)
      case Handler => HandlerTrace(f.s, c)
      case Body(_) => [Act(c)]
      case TakeMutex(_) => [Continue(c)]
      case MarkDead => [Mark(c)]
      case TakeStack => [Make(c)]
  }

  // ----- what the code says about the phase, and the other way round -----

  /** The context in the seat is where its code says; the CPU's own loop is when the seat is empty. */
  lemma NowOk(f: Machine, c: nat)
    requires Inv(f) && c < |f.s.cpus|
    ensures f.s.cpus[c].seat.Some? ==>
              var x := SeatOf(f.s, c);
              && x < |f.s.threads| == |f.code| && Seated(f.s, c, x) && At(f.s, x, OnCpu(c)) && Now(f, c) == f.code[x]
              && RunningCode(Now(f, c), f.s.threads[x].pc, f.s.cpus[c].phase, |f.s.threads|)
              && (Arriving(f.s.cpus[c].phase) <==> Parked(f.s.threads[x].pc))
              && (f.s.cpus[c].phase.Inside? ==> Allowed(f.s, x, f.s.cpus[c].phase.op))
    ensures f.s.cpus[c].seat.None? ==>
              && Now(f, c) == f.main[c] && MainOk(f.s.cpus[c], f.main[c])
              && (f.s.cpus[c].phase.Inside? ==> f.s.cpus[c].phase.op.Dispatch?)
    ensures MainOk(f.s.cpus[c], f.main[c]) && CountsOk(f.s, c, f.counts[c])
    ensures f.s.cpus[c].phase.Out? <==> f.s.guard != Some(c)
  {
    if f.s.cpus[c].seat.Some? {
      OnCpuNow(f.s, c);
      assert CodeOk(f, SeatOf(f.s, c));
    } else {
      assert SeatOk(f.s, c);
    }
  }

  /** Where a context can be, by its next instruction. */
  lemma SeatHead(code: seq<Instr>, pc: Pc, phase: Phase, n: nat)
    requires RunningCode(code, pc, phase, n) && code != [] && (Arriving(phase) <==> Parked(pc))
    ensures match code[0]
            case TakeGuard => phase.Out? && TakesFor(code, pc, n)
            case FreeGuard =>
              ((phase.Resuming? && !pc.AtLock?) || (phase.Leaving? && (pc.User? || pc.Relock? || pc.Finishing?)))
              && code[1..] == Onward(if phase.Resuming? then ResumedPc(pc) else pc)
            case Handler => phase.Landing? && code == ParkedCode(pc)
            case Body(op) => phase == Inside(op) && code[1..] == Tail(op)
            case TakeMutex(m) => phase.Resuming? && pc == AtLock(m) && code[1..] == [FreeGuard]
            case MarkDead => phase.Out? && pc.Finishing? && code[1..] == [TakeGuard, Body(Quit), FreeGuard]
            case TakeStack => phase.Out? && pc.User? && code[1..] == [TakeGuard, Body(Create), FreeGuard]
  {
    if phase.Out? && pc.User? {
      var op :| UserCall(op) && (op.Join? ==> op.t < n) && code == CodeOf(op);
    }
  }

  /** The section that follows the taking of the guard is one the context may enter. */
  ghost predicate TakesFor(code: seq<Instr>, pc: Pc, n: nat) {
    && |code| > 1 && code[1].Body? && code[1..] == [code[1]] + Tail(code[1].op)
    && match pc
       case User => UserCall(code[1].op) && !code[1].op.Create? && (code[1].op.Join? ==> code[1].op.t < n)
       case Relock(m) => code[1].op == Lock(m)
       case Making => code[1].op == Create
       case Marked => code[1].op == Quit
       case _ => false
  }

  lemma MainHead(cpu: Cpu, code: seq<Instr>)
    requires MainOk(cpu, code) && code != [] && cpu.seat.None?
    ensures match code[0]
            case TakeGuard => cpu.phase.Out? && code == CodeOf(Dispatch)
            case FreeGuard => (cpu.phase.Resuming? || cpu.phase.Leaving?) && code[1..] == [Handler]
            case Handler =>
              (cpu.phase.Landing? && code == [Handler, FreeGuard, Handler]) || (cpu.phase.Out? && code == [Handler])
            case Body(op) => cpu.phase == Inside(op) && code[1..] == Tail(op)
            case _ => false
  {
  }

  // ----- the contexts that an instruction does not concern -----

  /** Threads stay where they are, and only the context on CPU `c` goes on. */
  ghost predicate Elsewhere(f: Machine, g: Machine, c: nat) {
    && c < |f.s.cpus| && Shape(f) && Shape(g) && !g.rogue
    && |g.s.threads| == |f.s.threads| && |g.s.cpus| == |f.s.cpus| && g.s.cpus[c].seat == f.s.cpus[c].seat
    && (forall y: nat | y < |f.s.threads| :: g.s.threads[y].loc == f.s.threads[y].loc)
    && (forall y: nat | y < |f.s.threads| && f.s.cpus[c].seat != Some(y) ::
          g.s.threads[y].pc == f.s.threads[y].pc && g.code[y] == f.code[y])
    && (forall d: nat | d < |f.s.cpus| && d != c ::
          g.s.cpus[d] == f.s.cpus[d] && g.main[d] == f.main[d] && g.counts[d] == f.counts[d]
          && (g.s.guard == Some(d) <==> f.s.guard == Some(d)))
  }

  lemma StillCoupled(f: Machine, g: Machine, c: nat)
    requires Inv(f) && Elsewhere(f, g, c) && CountsOk(g.s, c, g.counts[c])
    requires if f.s.cpus[c].seat.None? then MainOk(g.s.cpus[c], g.main[c])
             else var x := SeatOf(f.s, c);
                  && x < |f.s.threads| && g.main[c] == f.main[c]
                  && RunningCode(g.code[x], g.s.threads[x].pc, g.s.cpus[c].phase, |g.s.threads|)
    ensures Coupled(g)
  {
    forall y: nat | y < |g.s.threads| ensures CodeOk(g, y) {
      assert CodeOk(f, y) && ThreadOk(f.s, y, None);
    }
    forall d: nat | d < |g.s.cpus| ensures MainOk(g.s.cpus[d], g.main[d]) && CountsOk(g.s, d, g.counts[d]) {
      assert MainOk(f.s.cpus[d], f.main[d]) && CountsOk(f.s, d, f.counts[d]);
    }
  }

  /** What an instruction leaves behind, and how often it took, freed, switched or handled. */
  lemma Went(f: Machine, c: nat, code: seq<Instr>, k: Counts)
    requires Inv(f) && c < |f.s.cpus|
    ensures var g := Tally(SetNow(f, c, code), c, k);
            && Shape(g) && g.s == f.s && g.rogue == f.rogue && Now(g, c) == code
            && (forall y: nat | y < |f.code| && f.s.cpus[c].seat != Some(y) :: g.code[y] == f.code[y])
            && (forall d: nat | d < |f.s.cpus| && d != c :: g.main[d] == f.main[d] && g.counts[d] == f.counts[d])
            && (f.s.cpus[c].seat.Some? ==> g.main[c] == f.main[c] && SeatOf(f.s, c) < |g.code|
                                           && g.code[SeatOf(f.s, c)] == code)
            && (f.s.cpus[c].seat.None? ==> g.main[c] == code)
            && g.counts[c] == Plus(f.counts[c], k)
  {
    NowOk(f, c);
  }

  // ----- one lemma for each instruction -----

  ghost predicate Simulated(f: Machine, g: Machine, steps: seq<Step>) {
    T.ValidRun(f.s, steps) && g.s == T.Run(f.s, steps) && Coupled(g)
  }

  lemma OneStep(s: Sys, st: Step, t: Sys)
    requires T.Enabled(s, st) && t == T.Next(s, st)
    ensures T.ValidRun(s, [st]) && t == T.Run(s, [st])
  {
    assert [st][1..] == [];
  }

  lemma TwoSteps(s: Sys, a: Step, b: Step, t: Sys)
    requires T.Enabled(s, a) && T.Enabled(T.Next(s, a), b) && t == T.Next(T.Next(s, a), b)
    ensures T.ValidRun(s, [a, b]) && t == T.Run(s, [a, b])
  {
    OneStep(T.Next(s, a), b, t);
    assert [a, b][1..] == [b];
  }

  lemma CallStep(f: Machine, c: nat, op: Op)
    requires Inv(f) && Enabled(f, Call(c, op))
    ensures Simulated(f, Next(f, Call(c, op)), [])
  {
    NowOk(f, c);
    StillCoupled(f, Next(f, Call(c, op)), c);
  }

  lemma TakeCoupled(f: Machine, g: Machine, c: nat, code: seq<Instr>)
    requires Inv(f) && c < |f.s.cpus| && code == Now(f, c) && code != [] && code[0].TakeGuard? && f.s.guard.None?
    requires g == ExecTake(f, c, code)
    ensures Coupled(g)
  {
    NowOk(f, c);
    Went(f, c, code[1..], Counts(1, 0, 0, 0));
    if f.s.cpus[c].seat.Some? {
      SeatHead(code, f.s.threads[SeatOf(f.s, c)].pc, f.s.cpus[c].phase, |f.s.threads|);
    } else {
      MainHead(f.s.cpus[c], code);
    }
    StillCoupled(f, g, c);
  }

  lemma TakeEnabled(f: Machine, c: nat, code: seq<Instr>)
    requires Inv(f) && Enabled(f, Exec(c)) && code == Now(f, c) && code[0].TakeGuard?
    ensures T.Enabled(f.s, Enter(c, Section(code)))
  {
    NowOk(f, c);
    if f.s.cpus[c].seat.Some? {
      SeatHead(code, f.s.threads[SeatOf(f.s, c)].pc, f.s.cpus[c].phase, |f.s.threads|);
    } else {
      MainHead(f.s.cpus[c], code);
    }
  }

  lemma TakeStep(f: Machine, c: nat, code: seq<Instr>)
    requires Inv(f) && Enabled(f, Exec(c)) && code == Now(f, c) && code[0].TakeGuard?
    ensures Simulated(f, ExecTake(f, c, code), [Enter(c, Section(code))])
  {
    NowOk(f, c);
    Went(f, c, code[1..], Counts(1, 0, 0, 0));
    TakeCoupled(f, ExecTake(f, c, code), c, code);
    TakeEnabled(f, c, code);
    OneStep(f.s, Enter(c, Section(code)), ExecTake(f, c, code).s);
  }

  lemma FreePhase(f: Machine, c: nat, code: seq<Instr>)
    requires Inv(f) && c < |f.s.cpus| && code == Now(f, c) && code != [] && code[0].FreeGuard?
    ensures (f.s.cpus[c].phase.Resuming? || f.s.cpus[c].phase.Leaving?) && f.s.guard == Some(c)
    ensures f.s.cpus[c].phase.Resuming? && f.s.cpus[c].seat.Some? ==>
              SeatOf(f.s, c) < |f.s.threads| && !f.s.threads[SeatOf(f.s, c)].pc.AtLock?
  {
    NowOk(f, c);
    if f.s.cpus[c].seat.Some? {
      SeatHead(code, f.s.threads[SeatOf(f.s, c)].pc, f.s.cpus[c].phase, |f.s.threads|);
    } else {
      MainHead(f.s.cpus[c], code);
    }
  }

  lemma FreeCoupled(f: Machine, g: Machine, c: nat, code: seq<Instr>)
    requires Inv(f) && c < |f.s.cpus| && code == Now(f, c) && code != [] && code[0].FreeGuard?
    requires g == ExecFree(f, c, code)
    ensures Coupled(g)
  {
    NowOk(f, c);
    FreePhase(f, c, code);
    Went(f, c, code[1..], Counts(0, 1, 0, 0));
    if f.s.cpus[c].seat.Some? {
      SeatHead(code, f.s.threads[SeatOf(f.s, c)].pc, f.s.cpus[c].phase, |f.s.threads|);
    } else {
      MainHead(f.s.cpus[c], code);
    }
    StillCoupled(f, g, c);
  }

  lemma FreeStep(f: Machine, c: nat, code: seq<Instr>)
    requires Inv(f) && Enabled(f, Exec(c)) && code == Now(f, c) && code[0].FreeGuard?
    ensures Simulated(f, ExecFree(f, c, code), FreeTrace(f.s, c))
  {
    FreePhase(f, c, code);
    FreeCoupled(f, ExecFree(f, c, code), c, code);
    Went(f, c, code[1..], Counts(0, 1, 0, 0));
    FreeSteps(f.s, c, ExecFree(f, c, code).s);
  }

  lemma FreeSteps(s: Sys, c: nat, t: Sys)
    requires c < |s.cpus| && (s.cpus[c].phase.Resuming? || s.cpus[c].phase.Leaving?)
    requires s.cpus[c].phase.Resuming? && s.cpus[c].seat.Some? ==>
               SeatOf(s, c) < |s.threads| && !s.threads[SeatOf(s, c)].pc.AtLock?
    requires t == SetPhase(Settled(s, c), c, Out).(guard := None)
    ensures T.ValidRun(s, FreeTrace(s, c)) && t == T.Run(s, FreeTrace(s, c))
  {
    if s.cpus[c].phase.Resuming? {
      SettledIsResumed(s, c);
      ResumeMoved(s, c);
      TwoSteps(s, Continue(c), Leave(c), t);
    } else {
      OneStep(s, Leave(c), t);
    }
  }

  lemma SettledIsResumed(s: Sys, c: nat)
    requires c < |s.cpus| && s.cpus[c].phase.Resuming?
    requires s.cpus[c].seat.Some? ==> SeatOf(s, c) < |s.threads| && !s.threads[SeatOf(s, c)].pc.AtLock?
    ensures SetPhase(Settled(s, c), c, Out) == SetPhase(AfterResume(s, c), c, Out)
  {
    assert SetPhase(Settled(s, c), c, Out).cpus == SetPhase(AfterResume(s, c), c, Out).cpus;
  }


  lemma HandlerSteps(f: Machine, c: nat, code: seq<Instr>)
    requires Inv(f) && c < |f.s.cpus| && code == Now(f, c) && code != [] && code[0].Handler?
    ensures f.s.cpus[c].phase.Landing? || (f.s.cpus[c].phase.Out? && f.s.cpus[c].seat.None? && Handled(f.s, c) == f.s)
    ensures T.ValidRun(f.s, HandlerTrace(f.s, c)) && Handled(f.s, c) == T.Run(f.s, HandlerTrace(f.s, c))
  {
    NowOk(f, c);
    if f.s.cpus[c].seat.Some? {
      SeatHead(code, f.s.threads[SeatOf(f.s, c)].pc, f.s.cpus[c].phase, |f.s.threads|);
    } else {
      MainHead(f.s.cpus[c], code);
    }
    if f.s.cpus[c].phase.Landing? {
      OneStep(f.s, Land(c), Handled(f.s, c));
    } else {
      R.L.NoGarbage(f.s, c);
    }
  }

  lemma HandledKeeps(s: Sys, c: nat)
    requires c < |s.cpus|
    ensures var t := Handled(s, c);
            && |t.cpus| == |s.cpus| && t.guard == s.guard && |t.threads| == |s.threads|
            && (forall d: nat | d < |s.cpus| && d != c :: t.cpus[d] == s.cpus[d])
            && t.cpus[c].seat == s.cpus[c].seat
            && t.cpus[c].phase == (if s.cpus[c].phase.Landing? then Resuming else s.cpus[c].phase)
            && (forall y: nat | y < |s.threads| ::
                  t.threads[y].loc == s.threads[y].loc && t.threads[y].pc == s.threads[y].pc)
  {
    ReclaimThreads(s, c);
  }

  lemma HandlerCoupled(f: Machine, h: Machine, g: Machine, c: nat, code: seq<Instr>)
    requires Inv(f) && c < |f.s.cpus| && code == Now(f, c) && code != [] && code[0].Handler?
    requires h == Tally(SetNow(f, c, code[1..]), c, Counts(0, 0, 0, if f.s.guard == Some(c) then 1 else 0))
    requires g == h.(s := Handled(f.s, c))
    ensures Coupled(g)
  {
    NowOk(f, c);
    HandlerSteps(f, c, code);
    Went(f, c, code[1..], Counts(0, 0, 0, if f.s.guard == Some(c) then 1 else 0));
    HandledKeeps(f.s, c);
    if f.s.cpus[c].seat.Some? {
      SeatHead(code, f.s.threads[SeatOf(f.s, c)].pc, f.s.cpus[c].phase, |f.s.threads|);
    } else {
      MainHead(f.s.cpus[c], code);
    }
    StillCoupled(f, g, c);
  }

  lemma HandlerStep(f: Machine, c: nat, code: seq<Instr>)
    requires Inv(f) && Enabled(f, Exec(c)) && code == Now(f, c) && code[0].Handler?
    ensures Simulated(f, ExecHandler(f, c, code), HandlerTrace(f.s, c))
  {
    HandlerSteps(f, c, code);
    HandlerCoupled(f, Tally(SetNow(f, c, code[1..]), c, Counts(0, 0, 0, if f.s.guard == Some(c) then 1 else 0)),
                   ExecHandler(f, c, code), c, code);
  }

  lemma MutexCoupled(f: Machine, g: Machine, c: nat, code: seq<Instr>, m: nat)
    requires Inv(f) && c < |f.s.cpus| && code == Now(f, c) && code != [] && code[0] == TakeMutex(m)
    requires g == ExecMutex(f, c, code, m)
    ensures Coupled(g) && g.s == T.Next(f.s, Continue(c)) && T.Enabled(f.s, Continue(c))
  {
    NowOk(f, c);
    Went(f, c, code[1..], Counts(0, 0, 0, 0));
    if f.s.cpus[c].seat.Some? {
      SeatHead(code, f.s.threads[SeatOf(f.s, c)].pc, f.s.cpus[c].phase, |f.s.threads|);
    } else {
      MainHead(f.s.cpus[c], code);
    }
    ResumeMoved(f.s, c);
    ResumeThreads(f.s, c);
    StillCoupled(f, g, c);
  }

  lemma MutexStep(f: Machine, c: nat, code: seq<Instr>, m: nat)
    requires Inv(f) && Enabled(f, Exec(c)) && code == Now(f, c) && code[0] == TakeMutex(m)
    ensures Simulated(f, ExecMutex(f, c, code, m), [Continue(c)])
  {
    MutexCoupled(f, ExecMutex(f, c, code, m), c, code, m);
    OneStep(f.s, Continue(c), ExecMutex(f, c, code, m).s);
  }

  lemma MarkStep(f: Machine, g: Machine, c: nat, code: seq<Instr>)
    requires Inv(f) && Enabled(f, Exec(c)) && code == Now(f, c) && code[0].MarkDead?
    requires g == SetNow(f, c, code[1..]).(s := AfterMark(f.s, c, SeatOf(f.s, c)))
    ensures Simulated(f, g, [Mark(c)])
  {
    NowOk(f, c);
    Went(f, c, code[1..], Counts(0, 0, 0, 0));
    if f.s.cpus[c].seat.Some? {
      SeatHead(code, f.s.threads[SeatOf(f.s, c)].pc, f.s.cpus[c].phase, |f.s.threads|);
    } else {
      MainHead(f.s.cpus[c], code);
    }
    OneStep(f.s, Mark(c), g.s);
    StillCoupled(f, g, c);
  }

  lemma StackStep(f: Machine, g: Machine, c: nat, code: seq<Instr>)
    requires Inv(f) && Enabled(f, Exec(c)) && code == Now(f, c) && code[0].TakeStack?
    requires g == SetNow(f, c, code[1..]).(s := AfterMake(f.s, SeatOf(f.s, c)))
    ensures Simulated(f, g, [Make(c)])
  {
    NowOk(f, c);
    Went(f, c, code[1..], Counts(0, 0, 0, 0));
    if f.s.cpus[c].seat.Some? {
      SeatHead(code, f.s.threads[SeatOf(f.s, c)].pc, f.s.cpus[c].phase, |f.s.threads|);
    } else {
      MainHead(f.s.cpus[c], code);
    }
    OneStep(f.s, Make(c), g.s);
    StillCoupled(f, g, c);
  }

  lemma DropStep(f: Machine, c: nat, t: nat)
    requires Inv(f) && Enabled(f, DropHandle(c, t))
    ensures Simulated(f, Next(f, DropHandle(c, t)), [Drop(c, t)])
  {
    NowOk(f, c);
    var g := Next(f, DropHandle(c, t));
    assert f.s.cpus[c].phase.Out? && Is(f.s, SeatOf(f.s, c), User);
    OneStep(f.s, Drop(c, t), g.s);
    StillCoupled(f, g, c);
  }

  // ----- the body of a section -----

  /** Where a context is parked by a section that switches, and where it goes on after one that does not. */
  function SwitchPc(op: Op): Pc {
    match op
    case Lock(m) => AtLock(m)
    case Wait(v, m) => AtWait(v, m)
    case Join(t) => AtJoin(t)
    case Quit => Marked
    case _ => AtYield
  }

  function EndPc(op: Op): Pc {
    if op.Finish? then Finishing else User
  }

  ghost predicate SelfMoved(s: Sys, t: Sys, c: nat, x: nat, op: Op) {
    && x < |s.threads| <= |t.threads| && c < |s.cpus| == |t.cpus|
    && (if Switches(s, x, op) then
          && t.cpus[c].phase.Landing? && t.threads[x].pc == SwitchPc(op)
          && (if op.Quit? then t.threads[x].loc == Over(c) else t.threads[x].loc.InReady? || t.threads[x].loc.InQueue?)
        else
          && t.cpus[c] == s.cpus[c].(phase := Leaving)
          && t.threads[x].pc == EndPc(op) && t.threads[x].loc == OnCpu(c))
  }

  lemma LockSelf(s: Sys, c: nat, x: nat, m: nat)
    requires Places(s, None) && Seated(s, c, x) && s.cpus[c].phase == Inside(Lock(m))
    ensures SelfMoved(s, ActLock(s, c, x, m), c, x, Lock(m))
  {
    OnCpuNow(s, c);
    var t := Arrive(s, m, x);
    MutexPlaces(s, t, None);
    if M(s, m).locked { J.WaitSelfSelf(t, c, x, OnMutex(m), AtLock(m)); }
  }

  lemma UnlockSelf(s: Sys, c: nat, x: nat, m: nat)
    requires Places(s, None) && Seated(s, c, x) && s.cpus[c].phase == Inside(Unlock(m))
    ensures SelfMoved(s, ActUnlock(s, c, x, m), c, x, Unlock(m))
  {
    OnCpuNow(s, c);
    LeavingPlaces(s, c, x);
    ReleaseKeeps(SetPhase(s, c, Leaving), m, x);
    J.ReleaseSelf(SetPhase(s, c, Leaving), c, m, x);
  }

  lemma WaitSelfMoved(s: Sys, c: nat, x: nat, v: nat, m: nat)
    requires Places(s, None) && Seated(s, c, x) && s.cpus[c].phase == Inside(Wait(v, m))
    ensures SelfMoved(s, ActWait(s, c, x, v, m), c, x, Wait(v, m))
  {
    OnCpuNow(s, c);
    if M(s, m).owner == x + 1 {
      ReleasePlaces(s, m, x);
      ReleaseKeeps(s, m, x);
      J.ReleaseSelf(s, c, m, x);
      J.WaitSelfSelf(Release(s, m, x), c, x, OnCv(v), AtWait(v, m));
    }
  }

  lemma WakeSelfMoved(s: Sys, c: nat, x: nat, op: Op)
    requires Places(s, None) && Seated(s, c, x) && s.cpus[c].phase == Inside(op)
    requires op.Signal? || op.Broadcast? || op.Finish?
    ensures SelfMoved(s, AfterAct(s, c, x, op), c, x, op)
  {
    OnCpuNow(s, c);
    LeavingPlaces(s, c, x);
    var t := SetPhase(s, c, Leaving);
    match op {
      case Signal(v) => J.WakeOneSelf(t, c, x, OnCv(v));
      case Broadcast(v) =>
        J.WakeAllSelf(t, c, x, OnCv(v));
        WakeAllKeeps(t, OnCv(v));
      case _ =>
        J.WakeAllSelf(t, c, x, OnExit(x));
        WakeAllKeeps(t, OnExit(x));
    }
  }

  lemma LeaveSelf(s: Sys, c: nat, x: nat, op: Op)
    requires Places(s, None) && Seated(s, c, x) && s.cpus[c].phase == Inside(op)
    requires op.Join? || op.Yield? || op.Create? || op.Quit?
    ensures SelfMoved(s, AfterAct(s, c, x, op), c, x, op)
  {
    OnCpuNow(s, c);
    match op {
      case Join(y) => J.WaitSelfSelf(s, c, x, OnExit(y), AtJoin(y));
      case Yield =>
        YieldPlaces(s, c, x);
        YieldSelf(s, c, x);
      case Create =>
      case _ =>
        QuitPlaces(s, c, x);
        J.SwitchSelf(SetLoc(s, x, Over(c)), c, x);
        QuitSelf(SetLoc(s, x, Over(c)), c, x);
    }
  }

  lemma YieldSelf(s: Sys, c: nat, x: nat)
    requires Places(s, None) && Seated(s, c, x) && s.cpus[c].phase == Inside(Yield)
    ensures SelfMoved(s, ActYield(s, c, x), c, x, Yield)
  {
    OnCpuNow(s, c);
    if s.ready != [] {
      assert At(s, s.ready[0], InReady);
      assert PutInReady(SetPc(s, x, AtYield), x).ready[0] == s.ready[0];
    }
  }

  lemma QuitSelf(s: Sys, c: nat, x: nat)
    requires OnList(s, s.ready, InReady) && x < |s.threads| && s.threads[x].loc.Over? && c < |s.cpus|
    ensures Switch(s, c).threads[x].loc == s.threads[x].loc && Switch(s, c).cpus[c].phase.Landing?
  {
  }

  lemma BodySelf(s: Sys, c: nat, x: nat, op: Op)
    requires Places(s, None) && Seated(s, c, x) && s.cpus[c].phase == Inside(op)
    ensures SelfMoved(s, AfterAct(s, c, x, op), c, x, op)
  {
    match op {
      case Lock(m) => LockSelf(s, c, x, m);
      case Unlock(m) => UnlockSelf(s, c, x, m);
      case Wait(v, m) => WaitSelfMoved(s, c, x, v, m);
      case Signal(_) => WakeSelfMoved(s, c, x, op);
      case Broadcast(_) => WakeSelfMoved(s, c, x, op);
      case Finish => WakeSelfMoved(s, c, x, op);
      case Dispatch => OnCpuNow(s, c);
      case _ => LeaveSelf(s, c, x, op);
    }
  }

  /** What is left of a section is what the context's new program point says. */
  lemma BodyNext(s: Sys, x: nat, op: Op)
    ensures Switches(s, x, op) && !op.Quit? && !op.Dispatch? ==> AfterSwitch(op) + Tail(op) == ParkedCode(SwitchPc(op))
    ensures !Switches(s, x, op) && !op.Dispatch? ==>
              (if Throws(s, x, op) then [FreeGuard] else Tail(op)) == [FreeGuard] + Onward(EndPc(op))
  {
  }

  lemma MoreThreads(code: seq<Instr>, pc: Pc, phase: Phase, n: nat, m: nat)
    requires RunningCode(code, pc, phase, n) && n <= m
    ensures RunningCode(code, pc, phase, m)
  {
    if phase.Out? && pc.User? && code != [] {
      var op :| UserCall(op) && (op.Join? ==> op.t < n) && code == CodeOf(op);
    }
  }

  lemma NotSeated(s: Sys, y: nat, e: nat)
    requires Places(s, None) && y < |s.threads| && e < |s.cpus| && !s.threads[y].loc.OnCpu?
    ensures s.cpus[e].seat != Some(y)
  {
    assert SeatOk(s, e);
  }

  lemma OtherCode(f: Machine, g: Machine, c: nat, y: nat)
    requires Inv(f) && Places(g.s, None) && Moved(f.s, g.s, c)
    requires y < |f.s.threads| <= |g.s.threads| && y < |f.code| && y < |g.code| && f.s.cpus[c].seat != Some(y)
    requires g.code[y] == f.code[y] && g.s.threads[y].pc == f.s.threads[y].pc
    requires f.s.threads[y].loc.Over? || f.s.threads[y].loc.OnCpu? ==> g.s.threads[y].loc == f.s.threads[y].loc
    ensures CodeOk(g, y)
  {
    assert CodeOk(f, y) && ThreadOk(f.s, y, None) && ThreadOk(g.s, y, None);
    if f.s.threads[y].loc.OnCpu? {
      var d := f.s.threads[y].loc.c;
      MoreThreads(f.code[y], f.s.threads[y].pc, f.s.cpus[d].phase, |f.s.threads|, |g.s.threads|);
    } else if g.s.threads[y].loc.OnCpu? {
      NotSeated(f.s, y, g.s.threads[y].loc.c);
    }
  }

  lemma SelfCode(f: Machine, g: Machine, c: nat, x: nat, op: Op)
    requires Inv(f) && Seated(f.s, c, x) && f.s.cpus[c].phase == Inside(op) && !op.Dispatch?
    requires Places(g.s, None) && SelfMoved(f.s, g.s, c, x, op) && x < |g.code|
    requires g.code[x] == if Switches(f.s, x, op) then AfterSwitch(op) + Tail(op)
                          else if Throws(f.s, x, op) then [FreeGuard] else Tail(op)
    ensures CodeOk(g, x)
  {
    BodyNext(f.s, x, op);
    assert ThreadOk(g.s, x, None);
  }

  /** After the body of a section, by the context in the seat. */
  lemma SeatBody(f: Machine, h: Machine, g: Machine, c: nat, x: nat, op: Op, next: seq<Instr>)
    requires Inv(f) && Seated(f.s, c, x) && f.s.cpus[c].phase == Inside(op)
    requires next == if Switches(f.s, x, op) then AfterSwitch(op) + Tail(op)
                     else if Throws(f.s, x, op) then [FreeGuard] else Tail(op)
    requires h == Tally(SetNow(f, c, next), c, Counts(0, 0, if Switches(f.s, x, op) then 1 else 0, 0))
    requires g == h.(s := AfterAct(f.s, c, x, op), code := if op.Create? then h.code + [WRAPPER] else h.code)
    ensures Coupled(g)
  {
    NowOk(f, c);
    Went(f, c, next, Counts(0, 0, if Switches(f.s, x, op) then 1 else 0, 0));
    StepPlaces(f.s, Act(c));
    ActMoved(f.s, c, x, op);
    J.ActGrows(f.s, c, x, op);
    BodySelf(f.s, c, x, op);
    SeatBodyCodes(f, h, g, c, x, op);
    forall d: nat | d < |g.s.cpus| ensures MainOk(g.s.cpus[d], g.main[d]) && CountsOk(g.s, d, g.counts[d]) {
      assert MainOk(f.s.cpus[d], f.main[d]) && CountsOk(f.s, d, f.counts[d]);
    }
  }

  lemma SeatBodyCodes(f: Machine, h: Machine, g: Machine, c: nat, x: nat, op: Op)
    requires Inv(f) && Seated(f.s, c, x) && f.s.cpus[c].phase == Inside(op) && !op.Dispatch?
    requires |h.code| == |f.code| && x < |h.code|
    requires forall y: nat | y < |f.code| && y != x :: h.code[y] == f.code[y]
    requires h.code[x] == if Switches(f.s, x, op) then AfterSwitch(op) + Tail(op)
                          else if Throws(f.s, x, op) then [FreeGuard] else Tail(op)
    requires g.s == AfterAct(f.s, c, x, op) && g.code == if op.Create? then h.code + [WRAPPER] else h.code
    requires |g.code| == |g.s.threads| && Places(g.s, None) && Moved(f.s, g.s, c)
    ensures forall y: nat | y < |g.s.threads| :: CodeOk(g, y)
  {
    BodySelf(f.s, c, x, op);
    J.ActGrows(f.s, c, x, op);
    J.ActOthers(f.s, c, x, op);
    SelfCode(f, g, c, x, op);
    forall y: nat | y < |g.s.threads| ensures CodeOk(g, y) {
      if y < |f.s.threads| && y != x {
        assert J.OtherKept(f.s, g.s, y, x, op.Finish?);
        OtherCode(f, g, c, y);
      }
    }
  }

  /** After the body of a dispatch, by the CPU's own loop. */
  lemma MainBody(f: Machine, h: Machine, g: Machine, c: nat, x: nat, next: seq<Instr>)
    requires Inv(f) && c < |f.s.cpus| && f.s.cpus[c].seat.None? && f.s.cpus[c].phase == Inside(Dispatch)
    requires next == if f.s.ready != [] then AfterSwitch(Dispatch) + Tail(Dispatch) else Tail(Dispatch)
    requires h == Tally(SetNow(f, c, next), c, Counts(0, 0, if f.s.ready != [] then 1 else 0, 0))
    requires g == h.(s := ActDispatch(f.s, c))
    ensures Coupled(g)
  {
    NowOk(f, c);
    Went(f, c, next, Counts(0, 0, if f.s.ready != [] then 1 else 0, 0));
    StepPlaces(f.s, Act(c));
    ActMoved(f.s, c, x, Dispatch);
    J.SwitchSize(f.s, c);
    J.SwitchOthers(f.s, c, |f.s.threads|);
    forall y: nat | y < |g.s.threads| ensures CodeOk(g, y) {
      if f.s.ready != [] { assert J.OtherKept(f.s, g.s, y, |f.s.threads|, false); }
      OtherCode(f, g, c, y);
    }
    forall d: nat | d < |g.s.cpus| ensures MainOk(g.s.cpus[d], g.main[d]) && CountsOk(g.s, d, g.counts[d]) {
      assert MainOk(f.s.cpus[d], f.main[d]) && CountsOk(f.s, d, f.counts[d]);
    }
  }

  lemma BodyPhase(f: Machine, c: nat, code: seq<Instr>, op: Op)
    requires Inv(f) && c < |f.s.cpus| && code == Now(f, c) && code != [] && code[0] == Body(op)
    ensures f.s.cpus[c].phase == Inside(op) && f.s.guard == Some(c) && code[1..] == Tail(op)
    ensures f.s.cpus[c].seat.None? ==> op.Dispatch?
  {
    NowOk(f, c);
    if f.s.cpus[c].seat.Some? {
      SeatHead(code, f.s.threads[SeatOf(f.s, c)].pc, f.s.cpus[c].phase, |f.s.threads|);
    } else {
      MainHead(f.s.cpus[c], code);
    }
  }

  lemma BodyStep(f: Machine, c: nat, code: seq<Instr>, op: Op)
    requires Inv(f) && Enabled(f, Exec(c)) && code == Now(f, c) && code[0] == Body(op)
    ensures Simulated(f, ExecBody(f, c, code, op), [Act(c)])
  {
    BodyPhase(f, c, code, op);
    var x, g := SeatOf(f.s, c), ExecBody(f, c, code, op);
    var switches := Switches(f.s, x, op);
    var next := if switches then AfterSwitch(op) + code[1..] else if Throws(f.s, x, op) then [FreeGuard] else code[1..];
    var h := Tally(SetNow(f, c, next), c, Counts(0, 0, if switches then 1 else 0, 0));
    Went(f, c, next, Counts(0, 0, if switches then 1 else 0, 0));
    if f.s.cpus[c].seat.Some? {
      NowOk(f, c);
      SeatBody(f, h, g, c, x, op, next);
    } else {
      MainBody(f, h, g, c, x, next);
    }
    OneStep(f.s, Act(c), g.s);
  }

  // ----- every run of the code is a run of `Threads` -----

  lemma ExecStep(f: Machine, c: nat)
    requires Inv(f) && Enabled(f, Exec(c))
    ensures Simulated(f, Next(f, Exec(c)), Trace(f, Exec(c)))
  {
    var code := Now(f, c);
    match code[0] {
      case TakeGuard => TakeStep(f, c, code);
      case FreeGuard => FreeStep(f, c, code);
      case Handler => HandlerStep(f, c, code);
      case Body(op) => BodyStep(f, c, code, op);
      case TakeMutex(m) => MutexStep(f, c, code, m);
      case MarkDead => MarkStep(f, Next(f, Exec(c)), c, code);
      case TakeStack => StackStep(f, Next(f, Exec(c)), c, code);
    }
  }

  lemma StepInv(f: Machine, st: CodeStep)
    requires Inv(f) && Enabled(f, st)
    ensures Inv(Next(f, st)) && T.ValidRun(f.s, Trace(f, st)) && Next(f, st).s == T.Run(f.s, Trace(f, st))
  {
    match st {
      case Call(c, op) => CallStep(f, c, op);
      case Exec(c) => ExecStep(f, c);
      case DropHandle(c, t) => DropStep(f, c, t);
    }
    R.RunInv(f.s, Trace(f, st));
  }

  lemma InitInv(n: nat)
    ensures Inv(InitMachine(n))
  {
    R.InitInv(n);
  }

  ghost predicate ValidRun(f: Machine, steps: seq<CodeStep>)
    decreases |steps|
  {
    steps == [] || (Enabled(f, steps[0]) && ValidRun(Next(f, steps[0]), steps[1..]))
  }

  function Run(f: Machine, steps: seq<CodeStep>): Machine
    requires ValidRun(f, steps)
    decreases |steps|
  {
    if steps == [] then f else Run(Next(f, steps[0]), steps[1..])
  }

  /** The machines that `n` CPUs can come to. */
  ghost predicate Reachable(n: nat, f: Machine) {
    exists steps :: ValidRun(InitMachine(n), steps) && f == Run(InitMachine(n), steps)
  }

  lemma {:induction false} ReachableRun(n: nat, s: Sys, steps: seq<Step>)
    requires R.Reachable(n, s) && T.ValidRun(s, steps)
    ensures R.Reachable(n, T.Run(s, steps))
    decreases |steps|
  {
    if steps != [] {
      R.ReachableNext(n, s, steps[0]);
      ReachableRun(n, T.Next(s, steps[0]), steps[1..]);
    }
  }

  /** Along every run of the code, its data are the states of a run of `Threads`. */
  lemma {:induction false} RunInv(n: nat, f: Machine, steps: seq<CodeStep>)
    requires Inv(f) && R.Reachable(n, f.s) && ValidRun(f, steps)
    ensures Inv(Run(f, steps)) && R.Reachable(n, Run(f, steps).s)
    decreases |steps|
  {
    if steps != [] {
      StepInv(f, steps[0]);
      ReachableRun(n, f.s, Trace(f, steps[0]));
      RunInv(n, Next(f, steps[0]), steps[1..]);
    }
  }

  /** Whatever holds in every run of `Threads` holds of the code. */
  lemma Refines(n: nat, f: Machine)
    requires Reachable(n, f)
    ensures R.Reachable(n, f.s) && Inv(f)
  {
    var steps :| ValidRun(InitMachine(n), steps) && f == Run(InitMachine(n), steps);
    InitInv(n);
    assert T.ValidRun(InitSys(n), []) && InitSys(n) == T.Run(InitSys(n), []);
    RunInv(n, InitMachine(n), steps);
  }

  // ----- what the code can do -----

  lemma IdleIsUser(f: Machine, c: nat)
    requires Inv(f) && c < |f.s.cpus| && Now(f, c) == []
    ensures f.s.cpus[c].phase.Out?
    ensures f.s.cpus[c].seat.Some? ==> Is(f.s, SeatOf(f.s, c), User)
  {
    NowOk(f, c);
  }

  lemma CallStarts(n: nat, f: Machine, c: nat, op: Op)
    requires Reachable(n, f) && c < |f.s.cpus| && Now(f, c) == []
    requires if f.s.cpus[c].seat.Some? then UserCall(op) && (op.Join? ==> op.t < |f.s.threads|) else op.Dispatch?
    ensures Enabled(f, Call(c, op)) && Inv(Next(f, Call(c, op)))
    ensures Next(f, Call(c, op)).s == f.s && Now(Next(f, Call(c, op)), c) == CodeOf(op)
  {
    Refines(n, f);
    NowOk(f, c);
    Went(f, c, CodeOf(op), Counts(0, 0, 0, 0));
    StepInv(f, Call(c, op));
  }

  lemma GuardTaken(g: Machine, c: nat, code: seq<Instr>, op: Op)
    requires Inv(g) && Enabled(g, Exec(c)) && code == Now(g, c) && code[0].TakeGuard? && op == Section(code)
    ensures T.Enabled(g.s, Enter(c, op)) && Next(g, Exec(c)).s == T.Next(g.s, Enter(c, op))
    ensures Now(Next(g, Exec(c)), c) == code[1..]
  {
    TakeEnabled(g, c, code);
    Went(g, c, code[1..], Counts(1, 0, 0, 0));
  }

  /** A thread in its own code can make any call, and an idle CPU a dispatch; with the guard free the call gets into
      its section. A join needs a handle that is still there. */
  lemma CallEnters(n: nat, f: Machine, c: nat, op: Op, g: Machine)
    requires Reachable(n, f) && c < |f.s.cpus| && Now(f, c) == [] && f.s.guard.None?
    requires if f.s.cpus[c].seat.Some? then !op.Quit? && !op.Dispatch? && !op.Create? else op.Dispatch?
    requires op.Join? ==> op.t < |f.s.threads| && f.s.threads[op.t].shared.byThread
    requires Enabled(f, Call(c, op)) ==> g == Next(f, Call(c, op))
    ensures Enabled(f, Call(c, op)) && Enabled(g, Exec(c)) && T.Enabled(f.s, Enter(c, op))
    ensures Next(g, Exec(c)).s == T.Next(f.s, Enter(c, op)) && Now(Next(g, Exec(c)), c) == [Body(op)] + Tail(op)
  {
    CallStarts(n, f, c, op);
    CodeEnters(op);
    GuardTaken(g, c, CodeOf(op), op);
  }

  lemma CodeEnters(op: Op)
    requires !op.Create?
    ensures |CodeOf(op)| > 1 && CodeOf(op)[0].TakeGuard? && Section(CodeOf(op)) == op
    ensures CodeOf(op)[1..] == [Body(op)] + Tail(op)
  {
  }

  /** A new thread gets its stack first, while there are any. */
  lemma CallTakesStack(n: nat, f: Machine, c: nat, g: Machine)
    requires Reachable(n, f) && c < |f.s.cpus| && Now(f, c) == [] && f.s.cpus[c].seat.Some? && f.s.out < 40
    requires Enabled(f, Call(c, Create)) ==> g == Next(f, Call(c, Create))
    ensures Enabled(f, Call(c, Create)) && Enabled(g, Exec(c)) && T.Enabled(f.s, Make(c))
    ensures Next(g, Exec(c)).s == T.Next(f.s, Make(c))
    ensures Now(Next(g, Exec(c)), c) == [TakeGuard, Body(Create), FreeGuard]
  {
    CallStarts(n, f, c, Create);
    Refines(n, f);
    IdleIsUser(f, c);
    Went(g, c, CodeOf(Create)[1..], Counts(0, 0, 0, 0));
  }

  // ----- the guard -----

  /** Read from a point at which the guard is held or not, the code takes the guard only when it is not held,
      frees it only when it is, does the sections in between, and ends without it. */
  predicate Balanced(code: seq<Instr>, held: bool) {
    if code == [] then !held
    else match code[0]
      case TakeGuard => !held && Balanced(code[1..], true)
      case FreeGuard => held && Balanced(code[1..], false)
      case Handler => Balanced(code[1..], held)
      case Body(_) => held && Balanced(code[1..], held)
      case TakeMutex(_) => held && Balanced(code[1..], held)
      case _ => !held && Balanced(code[1..], held)
  }

  predicate Resumes(code: seq<Instr>) {
    code != [] && code[0].Handler? && Balanced(code, true)
  }

  lemma Bracket(op: Op, k: seq<Instr>)
    ensures Balanced([FreeGuard] + k, true) == Balanced(k, false)
    ensures Balanced([Body(op), FreeGuard] + k, true) == Balanced(k, false)
    ensures Balanced([TakeGuard, Body(op), FreeGuard] + k, false) == Balanced(k, false)
  {
    assert ([FreeGuard] + k)[1..] == k;
    assert ([Body(op), FreeGuard] + k)[1..] == [FreeGuard] + k;
    assert ([TakeGuard, Body(op), FreeGuard] + k)[1..] == [Body(op), FreeGuard] + k;
  }

  lemma Past(i: Instr, k: seq<Instr>, held: bool)
    requires if i.TakeMutex? || i.Body? then held else i.Handler? || ((i.MarkDead? || i.TakeStack?) && !held)
    ensures Balanced([i] + k, held) == Balanced(k, held)
  {
    assert ([i] + k)[1..] == k;
  }

  lemma SectionBalanced(op: Op)
    ensures Balanced([FreeGuard], true) && Balanced([Body(op), FreeGuard], true)
    ensures Balanced([TakeGuard, Body(op), FreeGuard], false)
  {
    Bracket(op, []);
    assert [TakeGuard, Body(op), FreeGuard] + [] == [TakeGuard, Body(op), FreeGuard];
    assert [Body(op), FreeGuard] + [] == [Body(op), FreeGuard];
    assert [FreeGuard] + [] == [FreeGuard];
  }

  lemma OnwardBalanced(pc: Pc)
    ensures Balanced(Onward(pc), false) && Balanced([FreeGuard] + Onward(pc), true)
  {
    match pc {
      case Relock(m) => SectionBalanced(Lock(m));
      case Finishing =>
        SectionBalanced(Quit);
        Past(MarkDead, [TakeGuard, Body(Quit), FreeGuard], false);
        assert Onward(pc) == [MarkDead] + [TakeGuard, Body(Quit), FreeGuard];
      case _ =>
    }
    Bracket(Quit, Onward(pc));
  }

  lemma TailRest(op: Op)
    ensures Tail(op) == [FreeGuard] + Tail(op)[1..] && Balanced(Tail(op)[1..], false)
  {
    match op {
      case Wait(_, m) => OnwardBalanced(Relock(m));
      case Finish => OnwardBalanced(Finishing);
      case Dispatch => Past(Handler, [], false);
      case _ =>
    }
  }

  lemma BodyThen(op: Op, tail: seq<Instr>, k: seq<Instr>)
    requires tail == [FreeGuard] + k && Balanced(k, false)
    ensures Balanced([Body(op)] + tail, true) && Balanced([TakeGuard, Body(op)] + tail, false)
  {
    Bracket(op, k);
    assert [Body(op)] + tail == [Body(op), FreeGuard] + k;
    assert [TakeGuard, Body(op)] + tail == [TakeGuard, Body(op), FreeGuard] + k;
  }

  lemma TailBalanced(op: Op)
    ensures Balanced([Body(op)] + Tail(op), true) && Balanced([TakeGuard, Body(op)] + Tail(op), false)
  {
    TailRest(op);
    BodyThen(op, Tail(op), Tail(op)[1..]);
  }

  lemma CallBalanced(op: Op)
    ensures Balanced(CodeOf(op), false)
  {
    TailBalanced(op);
    if op.Create? {
      SectionBalanced(op);
      Past(TakeStack, [TakeGuard, Body(op), FreeGuard], false);
      assert CodeOf(op) == [TakeStack] + [TakeGuard, Body(op), FreeGuard];
    } else {
      assert CodeOf(op) == [TakeGuard, Body(op)] + Tail(op);
    }
  }

  lemma ParkedBalanced(pc: Pc)
    ensures Resumes(ParkedCode(pc)) && Balanced(ParkedCode(pc)[1..], true)
  {
    var k := ParkedCode(pc)[1..];
    match pc {
      case AtLock(m) =>
        Past(TakeMutex(m), [FreeGuard], true);
        SectionBalanced(Lock(m));
        assert k == [TakeMutex(m)] + [FreeGuard];
      case AtWait(_, m) =>
        OnwardBalanced(Relock(m));
        assert k == [FreeGuard] + Onward(Relock(m));
      case _ =>
        SectionBalanced(Yield);
        assert k == [FreeGuard];
    }
    Past(Handler, k, true);
    assert ParkedCode(pc) == [Handler] + k;
  }

  lemma RunningBalanced(code: seq<Instr>, pc: Pc, phase: Phase, n: nat)
    requires RunningCode(code, pc, phase, n)
    ensures Balanced(code, !phase.Out?)
  {
    match phase {
      case Out =>
        if pc.User? {
          if code != [] {
            var op :| UserCall(op) && (op.Join? ==> op.t < n) && code == CodeOf(op);
            CallBalanced(op);
          }
        } else if pc.Making? {
          SectionBalanced(Create);
        } else if pc.Marked? {
          SectionBalanced(Quit);
        } else {
          OnwardBalanced(pc);
        }
      case Inside(op) => TailBalanced(op);
      case Landing => ParkedBalanced(pc);
      case Resuming => ParkedBalanced(pc);
      case Leaving => OnwardBalanced(pc);
    }
  }

  lemma MainBalanced(cpu: Cpu, code: seq<Instr>)
    requires MainOk(cpu, code) && cpu.seat.None?
    ensures Balanced(code, !cpu.phase.Out?)
  {
    ResumesLoop();
    match cpu.phase {
      case Out =>
        CallBalanced(Dispatch);
        assert [Handler][1..] == [];
      case Inside(op) => TailBalanced(op);
      case _ => assert [Handler, FreeGuard, Handler][1..] == [FreeGuard, Handler];
    }
  }

  /** Nobody frees the guard, or switches, without holding it; and a CPU that holds it has it still to free. */
  lemma GuardDiscipline(n: nat, f: Machine, c: nat)
    requires Reachable(n, f) && c < |f.s.cpus|
    ensures !f.rogue && Balanced(Now(f, c), f.s.guard == Some(c))
  {
    Refines(n, f);
    NowOk(f, c);
    if f.s.cpus[c].seat.Some? {
      RunningBalanced(Now(f, c), f.s.threads[SeatOf(f.s, c)].pc, f.s.cpus[c].phase, |f.s.threads|);
    } else {
      MainBalanced(f.s.cpus[c], Now(f, c));
    }
  }

  /** Every context that is parked, and every CPU's loop that has switched away, resumes in the thread handler and
      has one release of the guard to make for the switch that will resume it. */
  lemma ResumePoints(n: nat, f: Machine)
    requires Reachable(n, f)
    ensures forall x: nat | x < |f.s.threads| && !f.s.threads[x].loc.Over? && !f.s.threads[x].loc.OnCpu? ::
              x < |f.code| && Resumes(f.code[x])
    ensures forall c: nat | c < |f.s.cpus| && f.s.cpus[c].seat.Some? :: c < |f.main| && Resumes(f.main[c])
  {
    Refines(n, f);
    forall x: nat | x < |f.s.threads| && !f.s.threads[x].loc.Over? && !f.s.threads[x].loc.OnCpu?
      ensures x < |f.code| && Resumes(f.code[x])
    {
      assert CodeOk(f, x);
      ParkedBalanced(f.s.threads[x].pc);
    }
    forall c: nat | c < |f.s.cpus| && f.s.cpus[c].seat.Some? ensures c < |f.main| && Resumes(f.main[c]) {
      assert MainOk(f.s.cpus[c], f.main[c]);
      ResumesLoop();
    }
  }

  lemma ResumesLoop()
    ensures Resumes([Handler, FreeGuard, Handler])
  {
    assert [Handler, FreeGuard, Handler][1..] == [FreeGuard, Handler];
    assert [FreeGuard, Handler][1..] == [Handler];
  }

  /** On each CPU, takes and releases of the guard alternate across switches, and each switch is followed by exactly
      one run of the thread handler under the guard. */
  lemma GuardBalance(n: nat, f: Machine, c: nat)
    requires Reachable(n, f) && c < |f.s.cpus|
    ensures c < |f.counts|
    ensures f.counts[c].taken == f.counts[c].freed + (if f.s.guard == Some(c) then 1 else 0)
    ensures f.counts[c].switched
         == f.counts[c].handled + (if f.s.guard == Some(c) && Now(f, c) != [] && Now(f, c)[0].Handler? then 1 else 0)
  {
    Refines(n, f);
    NowOk(f, c);
  }

  function Rank(phase: Phase): nat {
    match phase
    case Out => 0
    case Inside(_) => 4
    case Landing => 3
    case Resuming => 2
    case Leaving => 1
  }

  /** The next at most `k` instructions on CPU `c`, none of which has to wait, free the guard. */
  predicate FreesWithin(f: Machine, c: nat, k: nat)
    decreases k
  {
    f.s.guard != Some(c) || (k > 0 && Enabled(f, Exec(c)) && FreesWithin(Next(f, Exec(c)), c, k - 1))
  }

  ghost predicate Closer(f: Machine, g: Machine, c: nat)
    requires c < |f.s.cpus|
  {
    || g.s.guard == None
    || (g.s.guard == Some(c) && |g.s.cpus| == |f.s.cpus| && Rank(g.s.cpus[c].phase) < Rank(f.s.cpus[c].phase))
  }

  lemma HeldStep(f: Machine, c: nat)
    requires Inv(f) && c < |f.s.cpus| && f.s.guard == Some(c)
    ensures Enabled(f, Exec(c)) && Closer(f, Next(f, Exec(c)), c)
  {
    NowOk(f, c);
    var code := Now(f, c);
    if f.s.cpus[c].seat.Some? {
      RunningBalanced(code, f.s.threads[SeatOf(f.s, c)].pc, f.s.cpus[c].phase, |f.s.threads|);
      SeatHead(code, f.s.threads[SeatOf(f.s, c)].pc, f.s.cpus[c].phase, |f.s.threads|);
    } else {
      MainBalanced(f.s.cpus[c], code);
      MainHead(f.s.cpus[c], code);
    }
    match code[0] {
      case FreeGuard =>
      case Handler => HandledKeeps(f.s, c);
      case Body(op) => HeldBody(f, c, code, op);
      case TakeMutex(m) => HeldMutex(f, c, code, m);
    }
  }

  lemma HeldBody(f: Machine, c: nat, code: seq<Instr>, op: Op)
    requires code != [] && c < |f.s.cpus| && f.s.guard == Some(c) && f.s.cpus[c].phase.Inside?
    ensures Closer(f, ExecBody(f, c, code, op), c)
  {
    ActMoved(f.s, c, SeatOf(f.s, c), op);
  }

  lemma HeldMutex(f: Machine, c: nat, code: seq<Instr>, m: nat)
    requires code != [] && c < |f.s.cpus| && f.s.guard == Some(c) && f.s.cpus[c].phase.Resuming?
    ensures Closer(f, ExecMutex(f, c, code, m), c)
  {
  }

  lemma {:induction false} HeldFrees(f: Machine, c: nat, k: nat)
    requires Inv(f) && c < |f.s.cpus| && (f.s.guard == Some(c) ==> Rank(f.s.cpus[c].phase) <= k)
    ensures FreesWithin(f, c, k)
    decreases k
  {
    if f.s.guard == Some(c) {
      HeldStep(f, c);
      StepInv(f, Exec(c));
      if k > 0 && Next(f, Exec(c)).s.guard == Some(c) { HeldFrees(Next(f, Exec(c)), c, k - 1); }
    }
  }

  /** A CPU that holds the guard never waits, and frees it in at most four instructions; other code waits for the
      guard or for a stack only. */
  lemma GuardFreed(n: nat, f: Machine, c: nat)
    requires Reachable(n, f) && c < |f.s.cpus|
    ensures FreesWithin(f, c, 4)
    ensures Now(f, c) != [] && !Now(f, c)[0].TakeGuard? && !Now(f, c)[0].TakeStack? ==> Enabled(f, Exec(c))
  {
    Refines(n, f);
    HeldFrees(f, c, 4);
  }
}
