/**
 The object that a thread shares with its handle, over whole runs: who has let go of it is what the run has done,
 and it is freed when both have.
 */
module Handles {
  import opened Prelude
  import opened Threads
  import J = ThreadJoins
  import R = ThreadRuns

  /** The run destroys the handle of thread `t`. */
  ghost predicate DroppedIn(steps: seq<Step>, t: nat) {
    steps != [] && ((steps[0].Drop? && steps[0].t == t) || DroppedIn(steps[1..], t))
  }

  /** The run marks thread `t` dead: at the end of its function, on the CPU where it runs. */
  ghost predicate MarkedIn(s: Sys, steps: seq<Step>, t: nat)
    decreases |steps|
  {
    steps != [] && ((steps[0].Mark? && Seated(s, steps[0].c, t)) || MarkedIn(Next(s, steps[0]), steps[1..], t))
  }

  // ----- steps -----

  /** What a step does to thread `y` here: the handle goes by its destruction only, the mark comes by marking only. */
  ghost predicate SharedStep(s: Sys, st: Step, t: Sys, y: nat)
    requires y < |s.threads|
  {
    && y < |t.threads|
    && (t.threads[y].shared.byThread <==> s.threads[y].shared.byThread && !(st.Drop? && st.t == y))
    && (t.threads[y].pc.Marked? <==> s.threads[y].pc.Marked? || (st.Mark? && Seated(s, st.c, y)))
  }

  lemma ActShared(s: Sys, c: nat, t: Sys, y: nat)
    requires R.Inv(s) && c < |s.cpus| && s.cpus[c].phase.Inside? && y < |s.threads| && t == Next(s, Act(c))
    ensures SharedStep(s, Act(c), t, y) && J.Grown(s, t)
  {
    var x, op := SeatOf(s, c), s.cpus[c].phase.op;
    assert SeatOk(s, c);
    if s.cpus[c].seat.None? {
      J.SwitchOthers(s, c, |s.threads|);
      assert s.ready != [] ==> J.OtherKept(s, t, y, |s.threads|, false);
    } else {
      OnCpuNow(s, c);
      J.ActOthers(s, c, x, op);
      J.ActSelf(s, c, x, op);
      assert y != x ==> J.OtherKept(s, t, y, x, op.Finish?);
    }
  }

  lemma QuietShared(s: Sys, st: Step, t: Sys, y: nat)
    requires R.Inv(s) && Enabled(s, st) && !st.Act? && y < |s.threads| && t == Next(s, st)
    ensures SharedStep(s, st, t, y) && |t.threads| == |s.threads|
  {
    match st {
      case Land(c) => ReclaimThreads(s, c);
      case Continue(c) =>
        ResumeThreads(s, c);
        if s.cpus[c].seat.Some? {
          OnCpuNow(s, c);
          ResumeKeeps(SetPhase(s, c, Leaving), SeatOf(s, c));
        }
      case _ =>
    }
  }

  lemma StepShared(s: Sys, st: Step, t: Sys, y: nat)
    requires R.Inv(s) && Enabled(s, st) && y < |s.threads| && t == Next(s, st)
    ensures SharedStep(s, st, t, y)
  {
    if st.Act? { ActShared(s, st.c, t, y); } else { QuietShared(s, st, t, y); }
  }

  lemma StepSize(s: Sys, st: Step)
    requires Enabled(s, st)
    ensures |Next(s, st).threads| == |s.threads| + if st.Act? && OpOf(s, st.c).Create? then 1 else 0
  {
    match st {
      case Act(c) => J.ActGrows(s, c, SeatOf(s, c), OpOf(s, c));
      case Land(c) => ReclaimThreads(s, c);
      case Continue(c) => ResumeThreads(s, c);
      case _ =>
    }
  }

  /** A new thread has a handle and is not marked. */
  lemma NewShared(s: Sys, st: Step, t: Sys, y: nat)
    requires Enabled(s, st) && |s.threads| <= y < |t.threads| && t == Next(s, st)
    ensures st.Act? && t.threads[y].shared.byThread && !t.threads[y].pc.Marked?
  {
    StepSize(s, st);
    J.ActGrows(s, st.c, SeatOf(s, st.c), OpOf(s, st.c));
  }

  // ----- runs -----

  /** Whether thread `t` has its handle, and its mark, at the end of a run is what the run did to them. */
  lemma {:induction false} RunShared(s: Sys, steps: seq<Step>, t: nat)
    requires R.Inv(s) && ValidRun(s, steps) && t < |Run(s, steps).threads|
    ensures Run(s, steps).threads[t].shared.byThread <==>
            (t < |s.threads| ==> s.threads[t].shared.byThread) && !DroppedIn(steps, t)
    ensures Run(s, steps).threads[t].pc.Marked? <==>
            (t < |s.threads| && s.threads[t].pc.Marked?) || MarkedIn(s, steps, t)
    decreases |steps|
  {
    if steps != [] {
      var st, u := steps[0], Next(s, steps[0]);
      R.StepInv(s, st);
      RunShared(u, steps[1..], t);
      if t < |s.threads| {
        StepShared(s, st, u, t);
      } else {
        if t < |u.threads| { NewShared(s, st, u, t); }
        NotThereYet(s, st, t);
      }
    }
  }

  lemma NotThereYet(s: Sys, st: Step, t: nat)
    requires R.Inv(s) && Enabled(s, st) && |s.threads| <= t
    ensures !(st.Drop? && st.t == t) && !(st.Mark? && Seated(s, st.c, t))
  {
    assert SeatOk(s, st.c);
  }

  /** The handle of a thread is gone exactly when the run has destroyed it; that of the first thread is a
      temporary, gone before the first step. */
  lemma HandleGone(n: nat, steps: seq<Step>, t: nat)
    requires ValidRun(InitSys(n), steps) && t < |Run(InitSys(n), steps).threads|
    ensures Run(InitSys(n), steps).threads[t].shared.byThread <==> t != 0 && !DroppedIn(steps, t)
  {
    R.InitInv(n);
    RunShared(InitSys(n), steps, t);
  }

  /** The shared object is freed once thread and handle have both let go of it, in either order, and then stays so:
      not before, and not twice. */
  lemma FreedByBoth(n: nat, steps: seq<Step>, t: nat)
    requires ValidRun(InitSys(n), steps) && t < |Run(InitSys(n), steps).threads|
    ensures var ended, gone := MarkedIn(InitSys(n), steps, t), t == 0 || DroppedIn(steps, t);
            Run(InitSys(n), steps).threads[t].shared.frees == if ended && gone then 1 else 0
  {
    R.InitInv(n);
    RunShared(InitSys(n), steps, t);
    assert R.Reachable(n, Run(InitSys(n), steps));
    R.SharedFreedOnce(n, Run(InitSys(n), steps), t);
  }
}
