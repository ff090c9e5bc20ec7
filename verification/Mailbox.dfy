/**
 The one-slot mailbox through which answering threads ask the tracer to protect a page and, for a
 reply, to copy it. Posters exclude each other by a mutex that they keep until the tracer is done; there is
 one tracer. As in the source, a poster marks the slot incomplete before it writes the last two fields, and
 the tracer reads those two one after the other. `posted`, `applied`, `early` and `returned` record history.
 */
module Mailbox {
  import opened Prelude
  import opened Protection

  type ThreadId = nat

  /** `buffer` is where the poster wants the page copied to, if `readPage` is set. */
  datatype Request = Request(page: nat, prot: Hw, readPage: bool, buffer: nat)

  /** How far thread `t`, which holds the mutex, has come with `req`. */
  datatype Poster =
    | Nobody
    | Published(t: ThreadId, req: Request)   // page and protection are in the slot, which is marked incomplete
    | Flagged(t: ThreadId, req: Request)     // `readPage` is, too
    | Waiting(t: ThreadId, req: Request)     // and `buffer`

  datatype Tracer =
    | Idle
    | Reading(page: nat, prot: Hw, readPage: bool)
    | Took(req: Request)
    | Applied(req: Request)

  /** Whether the tracer read the field before the poster had written it. */
  datatype Early = Early(flag: bool, buffer: bool)

  datatype State = State(poster: Poster, slot: Request, incomplete: bool, tracer: Tracer,
                         posted: seq<Request>, applied: seq<Request>, early: seq<Early>, returned: nat)

  datatype Step =
    | Post(t: ThreadId, req: Request)   // take the mutex, write page and protection, mark the slot incomplete
    | SetFlag
    | SetBuffer
    | Poke                              // the tracer looks and finds nothing to do
    | Take                              // it reads all fields but the last
    | TakeBuffer                        // it reads the last
    | Apply                             // it carries the request out
    | Complete                          // it marks the slot complete
    | Return(t: ThreadId)               // the poster sees that, and releases the mutex

  predicate Enabled(m: State, step: Step) {
    match step
    case Post(_, _) => m.poster.Nobody?
    case SetFlag => m.poster.Published?
    case SetBuffer => m.poster.Flagged?
    case Poke => m.tracer.Idle? && !m.incomplete
    case Take => m.tracer.Idle? && m.incomplete
    case TakeBuffer => m.tracer.Reading?
    case Apply => m.tracer.Took?
    case Complete => m.tracer.Applied?
    case Return(t) => m.poster.Waiting? && m.poster.t == t && !m.incomplete
  }

  function Next(m: State, step: Step): State
    requires Enabled(m, step)
  {
    match step
    case Post(t, req) => m.(poster := Published(t, req), slot := m.slot.(page := req.page, prot := req.prot),
                            incomplete := true, posted := m.posted + [req])
    case SetFlag => m.(poster := Flagged(m.poster.t, m.poster.req), slot := m.slot.(readPage := m.poster.req.readPage))
    case SetBuffer => m.(poster := Waiting(m.poster.t, m.poster.req), slot := m.slot.(buffer := m.poster.req.buffer))
    case Poke => m
    case Take => m.(tracer := Reading(m.slot.page, m.slot.prot, m.slot.readPage),
                    early := m.early + [Early(m.poster.Published?, false)])
    case TakeBuffer =>
      var k := |m.early|;
      m.(tracer := Took(Request(m.tracer.page, m.tracer.prot, m.tracer.readPage, m.slot.buffer)),
         early := if k > 0 then m.early[k - 1 := m.early[k - 1].(buffer := m.poster.Published? || m.poster.Flagged?)]
                  else m.early)
    case Apply => m.(tracer := Applied(m.tracer.req), applied := m.applied + [m.tracer.req])
    case Complete => m.(tracer := Idle, incomplete := false)
    case Return(_) => m.(poster := Nobody, returned := m.returned + 1)
  }

  function InitState(slot: Request): State {
    State(Nobody, slot, false, Idle, [], [], [], 0)
  }

  // ----- the invariant -----

  /** What the slot held before request `i`: the request before it, or what it held at first. */
  function Left(first: Request, posted: seq<Request>, i: nat): Request
    requires i <= |posted|
  {
    if i == 0 then first else posted[i - 1]
  }

  /** What the tracer sees of request `i`. */
  function Seen(first: Request, posted: seq<Request>, i: nat, e: Early): Request
    requires i < |posted|
  {
    var left, req := Left(first, posted, i), posted[i];
    Request(req.page, req.prot, if e.flag then left.readPage else req.readPage,
            if e.buffer then left.buffer else req.buffer)
  }

  ghost predicate PosterOk(first: Request, m: State) {
    var n := |m.posted|;
    if m.poster.Nobody? then m.returned == n && !m.incomplete && m.slot == Left(first, m.posted, n)
    else
      && n > 0 && m.returned == n - 1 && m.poster.req == m.posted[n - 1]
      && m.slot == Seen(first, m.posted, n - 1, Early(m.poster.Published?, m.poster.Published? || m.poster.Flagged?))
  }

  /** The number of requests the tracer has begun to read, and has carried out. */
  function Begun(m: State): int {
    if m.incomplete && m.tracer.Idle? then |m.posted| - 1 else |m.posted|
  }

  function Done(m: State): int {
    if m.incomplete && !m.tracer.Applied? then |m.posted| - 1 else |m.posted|
  }

  ghost predicate TracerOk(first: Request, m: State) {
    var n := |m.posted|;
    && (m.incomplete ==> !m.poster.Nobody?) && (!m.tracer.Idle? ==> m.incomplete)
    && |m.early| == Begun(m) && |m.applied| == Done(m)
    && (forall i :: 0 <= i < |m.applied| && i < |m.early| && i < n ==>
          m.applied[i] == Seen(first, m.posted, i, m.early[i]))
    && match m.tracer
       case Idle => true
       case Reading(page, prot, readPage) =>
         n > 0 && |m.early| == n && !m.early[n - 1].buffer
         && (page, prot) == (m.posted[n - 1].page, m.posted[n - 1].prot)
         && readPage == Seen(first, m.posted, n - 1, m.early[n - 1]).readPage
       case Took(req) => n > 0 && |m.early| == n && req == Seen(first, m.posted, n - 1, m.early[n - 1])
       case Applied(_) => true
  }

  ghost predicate Inv(first: Request, m: State) {
    PosterOk(first, m) && TracerOk(first, m)
  }

  lemma PostInv(first: Request, m: State, t: ThreadId, req: Request)
    requires Inv(first, m) && m.poster.Nobody?
    ensures Inv(first, Next(m, Post(t, req)))
  {
    var m' := Next(m, Post(t, req));
    forall i | 0 <= i < |m'.applied| && i < |m'.early| && i < |m'.posted|
      ensures m'.applied[i] == Seen(first, m'.posted, i, m'.early[i])
    {
      assert m'.applied[i] == Seen(first, m.posted, i, m.early[i]);
      assert Left(first, m'.posted, i) == Left(first, m.posted, i);
    }
  }

  lemma StepInv(first: Request, m: State, step: Step)
    requires Inv(first, m) && Enabled(m, step)
    ensures Inv(first, Next(m, step))
  {
    if step.Post? { PostInv(first, m, step.t, step.req); }
  }

  ghost predicate Run(m: State, steps: seq<Step>, z: State)
    decreases |steps|
  {
    if steps == [] then z == m else Enabled(m, steps[0]) && Run(Next(m, steps[0]), steps[1..], z)
  }

  lemma {:induction false} RunInv(first: Request, m: State, steps: seq<Step>, z: State)
    requires Inv(first, m) && Run(m, steps, z)
    ensures Inv(first, z)
    decreases |steps|
  {
    if steps != [] {
      StepInv(first, m, steps[0]);
      RunInv(first, Next(m, steps[0]), steps[1..], z);
    }
  }

  // ----- served once, and when rightly -----

  /** The tracer met the fields it read too early with the values that they were to get anyway. */
  predicate Lucky(left: Request, req: Request, e: Early) {
    (e.flag ==> left.readPage == req.readPage) && (e.buffer ==> left.buffer == req.buffer)
  }

  /** In every run, when a poster returns, as many requests have been carried out as were posted, one for
      each and its own last; and each is the one that was posted exactly when the tracer did not read a field
      too early that was to change. */
  lemma ServedOnceBeforeReturn(first: Request, steps: seq<Step>, z: State, t: ThreadId)
    requires Run(InitState(first), steps, z) && Enabled(z, Return(t))
    ensures |z.applied| == |z.posted| == |z.early| == z.returned + 1 && z.posted[z.returned] == z.poster.req
    ensures forall i :: 0 <= i < |z.posted| ==>
              (z.applied[i] == z.posted[i] <==> Lucky(Left(first, z.posted, i), z.posted[i], z.early[i]))
  {
    RunInv(first, InitState(first), steps, z);
    forall i | 0 <= i < |z.posted|
      ensures z.applied[i] == z.posted[i] <==> Lucky(Left(first, z.posted, i), z.posted[i], z.early[i])
    {
      assert z.applied[i] == Seen(first, z.posted, i, z.early[i]);
      SeenRight(first, z.posted, i, z.early[i]);
    }
  }

  lemma SeenRight(first: Request, posted: seq<Request>, i: nat, e: Early)
    requires i < |posted|
    ensures Seen(first, posted, i, e) == posted[i] <==> Lucky(Left(first, posted, i), posted[i], e)
  {
  }

  /** The tracer looks only at slots that are completely filled. */
  ghost predicate Polite(m: State, steps: seq<Step>)
    decreases |steps|
  {
    steps != [] ==>
      && Enabled(m, steps[0]) && (steps[0].Take? ==> m.poster.Waiting?)
      && Polite(Next(m, steps[0]), steps[1..])
  }

  ghost predicate NeverEarly(m: State) {
    && (forall i :: 0 <= i < |m.early| ==> m.early[i] == Early(false, false))
    && (m.tracer.Reading? ==> m.poster.Waiting?)
  }

  lemma {:induction false} PoliteNeverEarly(first: Request, m: State, steps: seq<Step>, z: State)
    requires Inv(first, m) && NeverEarly(m) && Run(m, steps, z) && Polite(m, steps)
    ensures NeverEarly(z)
    decreases |steps|
  {
    if steps != [] {
      StepInv(first, m, steps[0]);
      PoliteNeverEarly(first, Next(m, steps[0]), steps[1..], z);
    }
  }

  /** With a tracer that looks at full slots only, exactly the posted requests are carried out, in order. */
  lemma PoliteServesAll(first: Request, steps: seq<Step>, z: State, t: ThreadId)
    requires Run(InitState(first), steps, z) && Polite(InitState(first), steps) && Enabled(z, Return(t))
    ensures z.applied == z.posted
  {
    ServedOnceBeforeReturn(first, steps, z, t);
    PoliteNeverEarly(first, InitState(first), steps, z);
  }

  /** The states `m` are those of the run `steps`. */
  lemma {:induction false} RunOf(m: seq<State>, steps: seq<Step>, i: nat)
    requires |m| == |steps| + 1 && i <= |steps|
    requires forall k :: 0 <= k < |steps| ==> Enabled(m[k], steps[k]) && Next(m[k], steps[k]) == m[k + 1]
    ensures Run(m[i], steps[i..], m[|steps|])
    decreases |steps| - i
  {
    if i < |steps| {
      RunOf(m, steps, i + 1);
      assert steps[i..][1..] == steps[i + 1..] && steps[i..][0] == steps[i];
    }
  }

  /** A tracer that looks at once: the states and steps of a run with one request. */
  function EarlyState(t: ThreadId, page: nat, buffer: nat, k: nat): State {
    var asked, seen := Request(page, ReadOnly, true, buffer), Request(page, ReadOnly, false, 0);
    if k == 0 then InitState(Request(0, NoAccess, false, 0))
    else if k == 1 then State(Published(t, asked), seen, true, Idle, [asked], [], [], 0)
    else if k == 2 then State(Published(t, asked), seen, true, Reading(page, ReadOnly, false), [asked], [],
                                [Early(true, false)], 0)
    else if k == 3 then State(Published(t, asked), seen, true, Took(seen), [asked], [], [Early(true, true)], 0)
    else if k == 4 then State(Published(t, asked), seen, true, Applied(seen), [asked], [seen], [Early(true, true)], 0)
    else if k == 5 then State(Published(t, asked), seen, false, Idle, [asked], [seen], [Early(true, true)], 0)
    else if k == 6 then
      State(Flagged(t, asked), seen.(readPage := true), false, Idle, [asked], [seen], [Early(true, true)], 0)
    else State(Waiting(t, asked), asked, false, Idle, [asked], [seen], [Early(true, true)], 0)
  }

  function EarlyStep(t: ThreadId, page: nat, buffer: nat, k: nat): Step {
    if k == 0 then Post(t, Request(page, ReadOnly, true, buffer))
    else if k == 1 then Take
    else if k == 2 then TakeBuffer
    else if k == 3 then Apply
    else if k == 4 then Complete
    else if k == 5 then SetFlag
    else SetBuffer
  }

  lemma EarlyLeads(t: ThreadId, page: nat, buffer: nat, k: nat)
    requires k < 7
    ensures Enabled(EarlyState(t, page, buffer, k), EarlyStep(t, page, buffer, k))
    ensures Next(EarlyState(t, page, buffer, k), EarlyStep(t, page, buffer, k)) == EarlyState(t, page, buffer, k + 1)
  {
  }

  /** The first reply of a node asks for a page copy. A tracer that looks at once protects the page, makes
      no copy, and lets the poster return. */
  lemma EarlyTakeServesWrong(t: ThreadId, page: nat, buffer: nat)
    ensures exists steps, z ::
              && Run(InitState(Request(0, NoAccess, false, 0)), steps, z) && Enabled(z, Return(t))
              && z.posted == [Request(page, ReadOnly, true, buffer)] && z.applied == [Request(page, ReadOnly, false, 0)]
  {
    var m := seq(8, k requires 0 <= k < 8 => EarlyState(t, page, buffer, k));
    var steps := seq(7, k requires 0 <= k < 7 => EarlyStep(t, page, buffer, k));
    forall k | 0 <= k < 7 ensures Enabled(m[k], steps[k]) && Next(m[k], steps[k]) == m[k + 1] {
      EarlyLeads(t, page, buffer, k);
    }
    RunOf(m, steps, 0);
    assert steps[0..] == steps && m[0] == InitState(Request(0, NoAccess, false, 0));
    assert Run(m[0], steps, m[7]) && Enabled(m[7], Return(t));
  }

  // ----- every poster is served -----

  /** What poster and tracer still have to do before the poster can return. */
  function Work(m: State): nat {
    (if m.poster.Published? then 2 else if m.poster.Flagged? then 1 else 0)
    + if !m.incomplete then 0
      else match m.tracer case Idle => 4 case Reading(_, _, _) => 3 case Took(_) => 2 case Applied(_) => 1
  }

  predicate Useful(step: Step) {
    !step.Poke? && !step.Post? && !step.Return?
  }

  function UsefulSteps(steps: seq<Step>): nat {
    if steps == [] then 0 else (if Useful(steps[0]) then 1 else 0) + UsefulSteps(steps[1..])
  }

  predicate Holds(m: State, t: ThreadId) {
    !m.poster.Nobody? && m.poster.t == t
  }

  /** The next useful step, when there is one. */
  function NextUp(m: State): Step {
    if m.tracer.Applied? then Complete
    else if m.tracer.Took? then Apply
    else if m.tracer.Reading? then TakeBuffer
    else if m.incomplete then Take
    else if m.poster.Published? then SetFlag
    else SetBuffer
  }

  lemma WorkDone(first: Request, m: State, step: Step, t: ThreadId)
    requires Inv(first, m) && Holds(m, t) && Enabled(m, step) && !step.Return?
    ensures Holds(Next(m, step), t) && Work(Next(m, step)) + (if Useful(step) then 1 else 0) == Work(m)
  {
  }

  /** From wherever a run has got with thread `t` at the mailbox, at most six useful steps remain until it can
      return: each takes one off the work, until none is left some such step can happen, and when none is
      left the thread can return and not before. */
  lemma {:induction false} PosterIsServed(first: Request, m: State, more: seq<Step>, z: State, t: ThreadId)
    requires Inv(first, m) && Holds(m, t) && Run(m, more, z) && forall i :: 0 <= i < |more| ==> !more[i].Return?
    ensures Holds(z, t) && UsefulSteps(more) + Work(z) == Work(m) <= 6
    ensures Enabled(z, Return(t)) <==> Work(z) == 0
    ensures Work(z) > 0 ==> Useful(NextUp(z)) && Enabled(z, NextUp(z))
    decreases |more|
  {
    if more != [] {
      StepInv(first, m, more[0]);
      WorkDone(first, m, more[0], t);
      PosterIsServed(first, Next(m, more[0]), more[1..], z, t);
    }
  }

  // ----- the object -----

  /** The mailbox and the tracer's routine that empties it; `applied` stands for the effects on the child. */
  class MprotectRequest {
    var page: nat
    var prot: Hw
    var incomplete: bool
    var readPage: bool
    var buffer: nat
    ghost var applied: seq<Request>

    constructor ()
      ensures Empty() && applied == []
    {
      page, prot, incomplete, readPage, buffer, applied := 0, NoAccess, false, false, 0, [];
    }

    predicate Empty()
      reads this
    {
      !incomplete
    }

    ghost function Slot(): Request
      reads this
    {
      Request(page, prot, readPage, buffer)
    }

    method Produce(req: Request)
      requires Empty()
      modifies this
      ensures !Empty() && Slot() == req && applied == old(applied)
    {
      page := req.page;
      prot := req.prot;
      incomplete := true;
      readPage := req.readPage;
      buffer := req.buffer;
    }

    method Consume() returns (req: Request)
      ensures req == Slot()
    {
      req := Request(page, prot, readPage, buffer);
    }

    method UserMprotect(req: Request)
      modifies this`applied
      ensures applied == old(applied) + [req]
    {
      applied := applied + [req];
    }

    method CompleteRequest()
      modifies this`incomplete
      ensures Empty()
    {
      incomplete := false;
    }

    /** Safe to call at any time: without a request it does nothing. */
    method Respond()
      modifies this
      ensures Empty() && Slot() == old(Slot())
      ensures applied == if old(Empty()) then old(applied) else old(applied) + [old(Slot())]
    {
      if Empty() {
        return;
      }
      var req := Consume();
      UserMprotect(req);
      CompleteRequest();
    }
  }
}
