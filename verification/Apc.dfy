/**
 The life of queued APCs: every successful insertion runs the cleanup routine exactly once, on
 whichever of the four ways the APC leaves the system, and gives the driver object's reference back
 exactly once. The system takes a queued APC off its queue in one way only: delivery, rundown or removal.
 */
module Apc {
  import opened Basics
  import opened Runs
  import opened Tally

  datatype Mode = KernelMode | UserMode

  /** A normal routine and its context. */
  datatype Normal = Normal(routine: nat, context: nat)

  datatype Reason = Kernel | NormalKernel | Rundown | Removed

  /** What ran, in order, since the last insertion. */
  datatype Event = RanKernel(left: Option<Normal>) | RanNormal(normal: Normal) | Cleaned(reason: Reason)

  /** The routine the wrapper finds in the APC: the kernel routine until that left a normal routine to run. */
  datatype Routine = KernelRoutine | NormalRoutine(routine: nat)

  datatype Phase =
    | Fresh
    | Referenced
    | Queued
    | Delivered
    | KernelDone(normal: Option<Normal>)
    | Wrapped
    | Cleaning(reason: Reason)
    | Returning
    | Finished

  datatype Apc = Apc(phase: Phase, mode: Mode, internalRoutine: Routine, internalContext: nat, trace: seq<Event>)

  /** `driver` counts the driver object's references held by APCs. */
  datatype State = State(apcs: seq<Apc>, driver: int)

  datatype Step =
    | Initialize(mode: Mode)
    | Reference
    | Insert(ok: bool)
    | Deliver
    | RunKernel(normal: Option<Normal>)
    | AfterKernel
    | RunNormal
    | RunDown
    | Remove
    | Cleanup
    | Return

  predicate Enabled(s: State, t: nat, e: Step)
    requires t < |s.apcs|
  {
    var phase := s.apcs[t].phase;
    match e
    case Initialize(_) => phase.Fresh? || phase.Finished?
    case Reference => phase.Fresh?
    case Insert(_) => phase.Referenced?
    case Deliver => phase.Queued?
    case RunKernel(_) => phase.Delivered?
    case AfterKernel => phase.KernelDone?
    case RunNormal => phase.Wrapped?
    case RunDown => phase.Queued?
    case Remove => phase.Queued?
    case Cleanup => phase.Cleaning?
    case Return => phase.Returning?
  }

  function ApcAfter(a: Apc, e: Step): Apc {
    match e
    case Initialize(mode) => Apc(Fresh, mode, KernelRoutine, 0, [])
    case Reference => a.(phase := Referenced)
    case Insert(ok) => a.(phase := if ok then Queued else Fresh)
    case Deliver => a.(phase := Delivered)
    case RunKernel(normal) => a.(phase := KernelDone(normal), trace := a.trace + [RanKernel(normal)])
    case AfterKernel =>
      if a.phase.KernelDone? && a.mode.KernelMode? && a.phase.normal.Some? then
        a.(phase := Wrapped, internalRoutine := NormalRoutine(a.phase.normal.value.routine),
           internalContext := a.phase.normal.value.context)
      else a.(phase := Cleaning(Kernel))
    case RunNormal =>
      var routine := if a.internalRoutine.NormalRoutine? then a.internalRoutine.routine else 0;
      a.(phase := Cleaning(NormalKernel), trace := a.trace + [RanNormal(Normal(routine, a.internalContext))])
    case RunDown => a.(phase := Cleaning(Rundown))
    case Remove => a.(phase := Cleaning(Removed))
    case Cleanup =>
      if a.phase.Cleaning? then a.(phase := Returning, trace := a.trace + [Cleaned(a.phase.reason)]) else a
    case Return => a.(phase := Finished)
  }

  function DriverChange(e: Step): int {
    match e
    case Reference => 1
    case Insert(ok) => if ok then 0 else -1
    case Return => -1
    case _ => 0
  }

  function After(s: State, t: nat, e: Step): State
    requires t < |s.apcs|
  {
    State(s.apcs[t := ApcAfter(s.apcs[t], e)], s.driver + DriverChange(e))
  }

  ghost predicate StepBy(s: State, s': State, t: nat, e: Step) {
    t < |s.apcs| && Enabled(s, t, e) && s' == After(s, t, e)
  }

  ghost predicate Next(s: State, s': State) {
    exists t: nat, e: Step :: StepBy(s, s', t, e)
  }

  ghost predicate Init(s: State) {
    s.driver == 0 && forall i :: 0 <= i < |s.apcs| ==>
      s.apcs[i].phase.Fresh? && s.apcs[i].internalRoutine.KernelRoutine? && s.apcs[i].trace == []
  }

  // ---- what an APC's events may be ----

  /** The kernel routine ran and left no normal routine the wrapper takes over. */
  predicate KernelOnly(a: Apc, trace: seq<Event>) {
    |trace| == 1 && trace[0].RanKernel? && (a.mode.UserMode? || trace[0].left.None?)
  }

  /** The kernel routine ran, then the very normal routine and context it left. */
  predicate KernelThenNormal(trace: seq<Event>) {
    |trace| == 2 && trace[0].RanKernel? && trace[0].left.Some? && trace[1] == RanNormal(trace[0].left.value)
  }

  /** All that happens up to the cleanup, for the reason given to it. */
  predicate BeforeCleanup(a: Apc, trace: seq<Event>, reason: Reason) {
    match reason
    case Kernel => KernelOnly(a, trace)
    case NormalKernel => a.mode.KernelMode? && KernelThenNormal(trace)
    case Rundown => trace == []
    case Removed => trace == []
  }

  /** One insertion from beginning to end: exactly one cleanup, last, with the reason that fits what ran. */
  predicate Complete(a: Apc) {
    a.trace != [] && a.trace[|a.trace| - 1].Cleaned?
    && BeforeCleanup(a, a.trace[..|a.trace| - 1], a.trace[|a.trace| - 1].reason)
  }

  function Cleanups(trace: seq<Event>): nat {
    if trace == [] then 0 else (if trace[0].Cleaned? then 1 else 0) + Cleanups(trace[1..])
  }

  ghost predicate ApcOk(a: Apc) {
    match a.phase
    case Fresh => a.trace == [] && a.internalRoutine.KernelRoutine?
    case Referenced => a.trace == [] && a.internalRoutine.KernelRoutine?
    case Queued => a.trace == [] && a.internalRoutine.KernelRoutine?
    case Delivered => a.trace == [] && a.internalRoutine.KernelRoutine?
    case KernelDone(normal) => a.trace == [RanKernel(normal)]
    case Wrapped =>
      a.mode.KernelMode? && a.internalRoutine.NormalRoutine?
      && a.trace == [RanKernel(Some(Normal(a.internalRoutine.routine, a.internalContext)))]
    case Cleaning(reason) => BeforeCleanup(a, a.trace, reason)
    case Returning => Complete(a)
    case Finished => Complete(a)
  }

  /** A reference on the driver object is held from just before the insertion until just after the cleanup. */
  function Holds(k: nat, a: Apc): nat {
    if a.phase.Fresh? || a.phase.Finished? then 0 else 1
  }

  ghost predicate Inv(s: State) {
    (forall i :: 0 <= i < |s.apcs| ==> ApcOk(s.apcs[i])) && s.driver == Total(s.apcs, Holds, 0)
  }

  lemma OkKept(a: Apc, e: Step)
    requires ApcOk(a) && Enabled(State([a], 0), 0, e)
    ensures ApcOk(ApcAfter(a, e))
  {
    if e.Cleanup? {
      assert ApcAfter(a, e).trace[..|a.trace|] == a.trace;
    }
  }

  lemma StepKeepsInv(s: State, s': State)
    requires Inv(s) && Next(s, s')
    ensures Inv(s')
  {
    var t: nat, e: Step :| StepBy(s, s', t, e);
    OkKept(s.apcs[t], e);
    TotalUpdate(s.apcs, t, s'.apcs[t], Holds, 0);
  }

  lemma InvInEveryRun(run: seq<State>, i: nat)
    requires IsRun(run, Init, Next) && i < |run|
    ensures Inv(run[i])
  {
    forall s | Init(s) ensures Inv(s) { TotalZero(s.apcs, Holds, 0); }
    forall s, s' | Inv(s) && Next(s, s') ensures Inv(s') { StepKeepsInv(s, s'); }
    InvariantOnRun(run, Init, Next, Inv);
  }

  lemma {:induction false} CleanupsAppend(trace: seq<Event>, e: Event)
    ensures Cleanups(trace + [e]) == Cleanups(trace) + (if e.Cleaned? then 1 else 0)
  {
    if trace == [] {
      assert [] + [e] == [e] && [e][1..] == [];
    } else {
      assert (trace + [e])[1..] == trace[1..] + [e];
      CleanupsAppend(trace[1..], e);
    }
  }

  lemma {:induction false} NoCleanups(trace: seq<Event>)
    requires forall i :: 0 <= i < |trace| ==> !trace[i].Cleaned?
    ensures Cleanups(trace) == 0
  {
    if trace != [] {
      NoCleanups(trace[1..]);
    }
  }

  lemma CompleteCleansOnce(a: Apc)
    requires Complete(a)
    ensures Cleanups(a.trace) == 1
  {
    var n := |a.trace| - 1;
    assert a.trace == a.trace[..n] + [a.trace[n]];
    CleanupsAppend(a.trace[..n], a.trace[n]);
    NoCleanups(a.trace[..n]);
  }

  /**
   In every run a finished insertion ran the cleanup exactly once, after everything else; an APC
   still on its way has not been cleaned up yet.
   */
  lemma CleanedExactlyOnce(run: seq<State>, i: nat, k: nat)
    requires IsRun(run, Init, Next) && i < |run| && k < |run[i].apcs|
    ensures
      var a := run[i].apcs[k];
      if a.phase.Finished? || a.phase.Returning? then Complete(a) && Cleanups(a.trace) == 1 else Cleanups(a.trace) == 0
  {
    InvInEveryRun(run, i);
    var a := run[i].apcs[k];
    assert ApcOk(a);
    if a.phase.Finished? || a.phase.Returning? {
      CompleteCleansOnce(a);
    } else {
      NoCleanups(a.trace);
    }
  }

  lemma {:induction false} HoldsCounts(apcs: seq<Apc>)
    ensures Total(apcs, Holds, 0) == |Underway(apcs)|
  {
    if apcs == [] {
      assert Underway(apcs) == {};
    } else {
      var rest, shifted := Underway(apcs[1..]), Shifted(Underway(apcs[1..]));
      HoldsCounts(apcs[1..]);
      ShiftCounts(rest);
      assert Underway(apcs) == shifted + if apcs[0].phase.Fresh? || apcs[0].phase.Finished? then {} else {0} by {
        forall k | k in Underway(apcs) && k > 0 ensures k in shifted {
          assert k - 1 in rest && k == (k - 1) + 1;
        }
      }
    }
  }

  function Shifted(xs: set<nat>): set<nat> {
    set x | x in xs :: x + 1
  }

  lemma {:induction false} ShiftCounts(xs: set<nat>)
    ensures |Shifted(xs)| == |xs|
  {
    if xs != {} {
      var x :| x in xs;
      var rest := xs - {x};
      ShiftCounts(rest);
      assert xs == rest + {x};
      forall y | y in Shifted(xs) ensures y in Shifted(rest) + {x + 1} {
        assert y - 1 in xs;
      }
      assert Shifted(xs) == Shifted(rest) + {x + 1} && x + 1 !in Shifted(rest);
    }
  }

  /** The APCs between their insertion's beginning and their cleanup's return. */
  function Underway(apcs: seq<Apc>): set<nat> {
    set k: nat | k < |apcs| && !apcs[k].phase.Fresh? && !apcs[k].phase.Finished?
  }

  /** In every run the driver object carries one reference for each APC on its way, and none for the others. */
  lemma DriverReferencesBalance(run: seq<State>, i: nat)
    requires IsRun(run, Init, Next) && i < |run|
    ensures run[i].driver == |Underway(run[i].apcs)|
  {
    InvInEveryRun(run, i);
    HoldsCounts(run[i].apcs);
  }

  // ---- the events are what was done with the APC ----

  ghost predicate Moves(s: State, m: Move<Step>, s': State) {
    StepBy(s, s', m.t, m.e)
  }

  /** How an inserted APC has left the queue, if it has. */
  datatype Way = Waiting | Taken | ByKernel(normal: Option<Normal>) | ByRundown | ByRemoval

  /** Read off the moves on APC `t` after its insertion at `a`, up to `k`. */
  function WayUntil(trace: seq<Move<Step>>, t: nat, a: nat, k: nat): Way
    requires a < k <= |trace|
    decreases k
  {
    if k == a + 1 then Waiting
    else if trace[k - 1].t != t then WayUntil(trace, t, a, k - 1)
    else
      match trace[k - 1].e
      case Deliver => Taken
      case RunKernel(normal) => ByKernel(normal)
      case RunDown => ByRundown
      case Remove => ByRemoval
      case _ => WayUntil(trace, t, a, k - 1)
  }

  /** What should have happened to an APC on its way, up to its cleanup. */
  predicate OnWay(a: Apc, way: Way) {
    match way
    case Waiting => a.phase.Queued? && a.trace == []
    case Taken => a.phase.Delivered? && a.trace == []
    case ByKernel(normal) =>
      || (a.phase == KernelDone(normal) && a.trace == [RanKernel(normal)])
      || (a.phase == Cleaning(Kernel) && !(a.mode.KernelMode? && normal.Some?) && a.trace == [RanKernel(normal)])
      || (a.mode.KernelMode? && normal.Some?
          && ((a.phase.Wrapped? && a.trace == [RanKernel(normal)] && a.internalContext == normal.value.context
               && a.internalRoutine == NormalRoutine(normal.value.routine))
              || (a.phase == Cleaning(NormalKernel) && a.trace == [RanKernel(normal), RanNormal(normal.value)])))
    case ByRundown => a.phase == Cleaning(Rundown) && a.trace == []
    case ByRemoval => a.phase == Cleaning(Removed) && a.trace == []
  }

  /** All that should happen to an inserted APC, from the insertion to the cleanup. */
  function Story(mode: Mode, way: Way): seq<Event> {
    match way
    case ByKernel(normal) =>
      if mode.KernelMode? && normal.Some? then [RanKernel(normal), RanNormal(normal.value), Cleaned(NormalKernel)]
      else [RanKernel(normal), Cleaned(Kernel)]
    case ByRundown => [Cleaned(Rundown)]
    case ByRemoval => [Cleaned(Removed)]
    case _ => []
  }

  /** APC `t` is inserted at `a`, and its cleanup has not run by `k`. */
  ghost predicate OnItsWay(run: seq<State>, trace: seq<Move<Step>>, t: nat, a: nat, k: nat) {
    && IsTrace(run, trace, Init, Moves) && a < k < |run| == |trace| + 1
    && trace[a] == Move(t, Insert(true))
    && forall j :: a < j < k ==> !(trace[j].t == t && trace[j].e.Cleanup?)
  }

  lemma OthersStay(s: State, m: Move<Step>, s': State, t: nat)
    requires Moves(s, m, s') && t < |s.apcs| && m.t != t
    ensures t < |s'.apcs| && s'.apcs[t] == s.apcs[t]
  {
  }

  lemma InsertedWaits(s: State, s': State, t: nat)
    requires Inv(s) && Moves(s, Move(t, Insert(true)), s')
    ensures t < |s.apcs| && t < |s'.apcs| && s'.apcs[t].mode == s.apcs[t].mode && OnWay(s'.apcs[t], Waiting)
  {
    assert ApcOk(s.apcs[t]);
  }

  lemma WayStep(s: State, e: Step, s': State, t: nat, way: Way)
    requires Moves(s, Move(t, e), s') && OnWay(s.apcs[t], way) && !e.Cleanup?
    ensures t < |s'.apcs| && s'.apcs[t].mode == s.apcs[t].mode
    ensures OnWay(s'.apcs[t], match e
                              case Deliver => Taken
                              case RunKernel(normal) => ByKernel(normal)
                              case RunDown => ByRundown
                              case Remove => ByRemoval
                              case _ => way)
  {
  }

  lemma {:induction false} WayOf(run: seq<State>, trace: seq<Move<Step>>, t: nat, a: nat, k: nat)
    requires OnItsWay(run, trace, t, a, k)
    ensures t < |run[a].apcs| && t < |run[k].apcs| && run[k].apcs[t].mode == run[a].apcs[t].mode
    ensures OnWay(run[k].apcs[t], WayUntil(trace, t, a, k))
    decreases k
  {
    assert Moves(run[k - 1], trace[k - 1], run[k - 1 + 1]);
    hide OnWay, Moves, StepBy;
    if k == a + 1 {
      RunOfTrace(run, trace);
      InvInEveryRun(run, a);
      InsertedWaits(run[a], run[k], t);
    } else {
      WayOf(run, trace, t, a, k - 1);
      if trace[k - 1].t == t {
        WayStep(run[k - 1], trace[k - 1].e, run[k], t, WayUntil(trace, t, a, k - 1));
      } else {
        OthersStay(run[k - 1], trace[k - 1], run[k], t);
      }
    }
  }

  lemma RunOfTrace(run: seq<State>, trace: seq<Move<Step>>)
    requires IsTrace(run, trace, Init, Moves)
    ensures IsRun(run, Init, Next)
  {
    hide Init, StepBy;
    TraceIsRun(run, trace, Init, Moves, Next);
  }

  lemma CleanupEnds(s: State, s': State, t: nat, way: Way)
    requires Moves(s, Move(t, Cleanup), s') && OnWay(s.apcs[t], way)
    ensures t < |s'.apcs| && s'.apcs[t].trace == Story(s.apcs[t].mode, way)
  {
  }

  /**
   The cleanup routine is told how the APC left, and what ran before it is what that way calls for:
   the kernel routine, the very normal routine it left in a kernel mode APC, or nothing.
   */
  lemma CleanupTellsWay(run: seq<State>, trace: seq<Move<Step>>, t: nat, a: nat, b: nat)
    requires OnItsWay(run, trace, t, a, b) && b < |trace| && trace[b] == Move(t, Cleanup)
    ensures t < |run[a].apcs| && t < |run[b + 1].apcs|
    ensures run[b + 1].apcs[t].trace == Story(run[a].apcs[t].mode, WayUntil(trace, t, a, b))
  {
    WayOf(run, trace, t, a, b);
    assert Moves(run[b], trace[b], run[b + 1]);
    hide OnWay, Story, StepBy;
    CleanupEnds(run[b], run[b + 1], t, WayUntil(trace, t, a, b));
  }

  /** The mode an APC is initialized with stays until it is initialized again. */
  lemma {:induction false} ModeStays(run: seq<State>, trace: seq<Move<Step>>, t: nat, z: nat, k: nat, mode: Mode)
    requires IsTrace(run, trace, Init, Moves) && z < k < |run| == |trace| + 1
    requires trace[z] == Move(t, Initialize(mode))
    requires forall j :: z < j < k ==> !(trace[j].t == t && trace[j].e.Initialize?)
    ensures t < |run[k].apcs| && run[k].apcs[t].mode == mode
    decreases k
  {
    assert Moves(run[k - 1], trace[k - 1], run[k - 1 + 1]);
    if k > z + 1 {
      ModeStays(run, trace, t, z, k - 1, mode);
    }
  }

  /** An APC can always be carried on to its cleanup and return. */
  lemma NeverStuck(s: State, t: nat) returns (e: Step)
    requires t < |s.apcs|
    ensures Enabled(s, t, e)
  {
    match s.apcs[t].phase
    case Fresh => e := Reference;
    case Referenced => e := Insert(true);
    case Queued => e := Deliver;
    case Delivered => e := RunKernel(None);
    case KernelDone(_) => e := AfterKernel;
    case Wrapped => e := RunNormal;
    case Cleaning(_) => e := Cleanup;
    case Returning => e := Return;
    case Finished => e := Initialize(KernelMode);
  }
}
