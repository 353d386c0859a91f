/**
 Capturing another thread's stack: the caller and the APC it queues share one object. The object's
 two references, its event and its frames, over every interleaving of the two parties.
 */
module BackTrace {
  import opened Runs

  datatype Status = Pending | Success | Timeout | Failed

  datatype CallerPc =
    | Begin
    | Created
    | Referenced
    | Undoing
    | Waiting
    | Copying
    | Removing
    | RemovedApc
    | Leaving
    | Returned

  datatype ApcPc =
    | NoApc
    | Queued
    | Running
    | Written
    | Signalled
    | RunDown
    | Gone

  /**
   `count` is the object's reference count and `freed` how often it was freed; `written` whether
   `frames` is final; `created` whether there is an object at all; `copied` what the caller took from it.
   */
  datatype State = State(
    caller: CallerPc,
    apc: ApcPc,
    limit: nat,
    created: bool,
    count: int,
    freed: nat,
    event: bool,
    frames: seq<nat>,
    written: bool,
    status: Status,
    copied: seq<nat>)

  datatype Step =
    | Create(ok: bool)
    | Reference
    | Insert(ok: bool)
    | Undo
    | WaitDone
    | WaitTimeout
    | Copy
    | Remove(ok: bool)
    | CleanupRemoved
    | Leave
    | Deliver
    | Capture(frames: seq<nat>)
    | Signal
    | Cleanup
    | RundownApc
    | CleanupRundown

  predicate Enabled(s: State, e: Step) {
    match e
    case Create(_) => s.caller.Begin?
    case Reference => s.caller.Created?
    case Insert(_) => s.caller.Referenced?
    case Undo => s.caller.Undoing?
    case WaitDone => s.caller.Waiting? && s.event
    case WaitTimeout => s.caller.Waiting? && !s.event
    case Copy => s.caller.Copying?
    // a queued APC may still not be removed: the kernel may not offer the removal
    case Remove(ok) => s.caller.Removing? && (ok ==> s.apc.Queued?)
    case CleanupRemoved => s.caller.RemovedApc?
    case Leave => s.caller.Leaving?
    case Deliver => s.apc.Queued?
    // the frame walk returns at most as many frames as it was asked for
    case Capture(frames) => s.apc.Running? && |frames| <= s.limit
    case Signal => s.apc.Written?
    case Cleanup => s.apc.Signalled?
    case RundownApc => s.apc.Queued?
    case CleanupRundown => s.apc.RunDown?
  }

  function Dereferenced(s: State): State {
    s.(count := s.count - 1, freed := if s.count - 1 == 0 then s.freed + 1 else s.freed)
  }

  function After(s: State, e: Step): State {
    match e
    case Create(ok) =>
      if ok then s.(caller := Created, created := true, count := 1) else s.(caller := Returned, status := Failed)
    case Reference => s.(caller := Referenced, count := s.count + 1)
    case Insert(ok) => if ok then s.(caller := Waiting, apc := Queued) else s.(caller := Undoing)
    case Undo => Dereferenced(s).(caller := Leaving, status := Failed)
    case WaitDone => s.(caller := Copying)
    case WaitTimeout => s.(caller := Removing, status := Timeout)
    case Copy => s.(caller := Leaving, copied := s.frames, status := Success)
    case Remove(ok) => if ok then s.(caller := RemovedApc, apc := Gone) else s.(caller := Leaving)
    case CleanupRemoved => Dereferenced(s).(caller := Leaving)
    case Leave => Dereferenced(s).(caller := Returned)
    case Deliver => s.(apc := Running)
    case Capture(frames) => s.(apc := Written, frames := frames, written := true)
    case Signal => s.(apc := Signalled, event := true)
    case Cleanup => Dereferenced(s).(apc := Gone)
    case RundownApc => s.(apc := RunDown)
    case CleanupRundown => Dereferenced(s).(apc := Gone)
  }

  ghost predicate Next(s: State, s': State) {
    exists e :: Enabled(s, e) && s' == After(s, e)
  }

  ghost predicate Init(s: State) {
    s.caller == Begin && s.apc == NoApc && !s.created && s.count == 0 && s.freed == 0 && !s.event && s.frames == [] && !s.written
    && s.status == Pending && s.copied == []
  }

  // ---- who holds the object ----

  /** The caller's own reference. */
  function CallerHolds(s: State): nat {
    if s.caller.Begin? || s.caller.Returned? then 0 else 1
  }

  /** The reference taken for the APC, wherever the duty to return it lies. */
  function ApcHolds(s: State): nat {
    if s.caller.Referenced? || s.caller.Undoing? || s.caller.RemovedApc?
       || s.apc.Queued? || s.apc.Running? || s.apc.Written? || s.apc.Signalled? || s.apc.RunDown? then 1 else 0
  }

  ghost predicate Inv(s: State) {
    && s.count == CallerHolds(s) + ApcHolds(s)
    && s.freed == (if s.created && s.count == 0 then 1 else 0)
    && (s.caller.Begin? ==> !s.created) && (!s.caller.Begin? && !s.caller.Returned? ==> s.created)
    && (!s.created ==> s.apc.NoApc?)
    // before the insertion there is no APC
    && (s.caller.Begin? || s.caller.Created? || s.caller.Referenced? || s.caller.Undoing? ==> s.apc.NoApc?)
    && (s.caller.RemovedApc? ==> s.apc.Gone?)
    && (s.caller.Waiting? || s.caller.Copying? || s.caller.Removing? || s.caller.RemovedApc? ==> !s.apc.NoApc?)
    && (s.caller.Removing? || s.caller.RemovedApc? ==> s.status.Timeout?)
    && (s.status.Pending? || s.caller.Leaving? || s.caller.Returned? || s.caller.Removing? || s.caller.RemovedApc?)
    && (s.apc.NoApc? ==> !s.event)
    // the event follows the frames
    && (s.event ==> s.written) && (s.apc.Written? || s.apc.Signalled? ==> s.written)
    && (s.caller.Copying? ==> s.event)
    && |s.frames| <= s.limit
    && (s.status.Success? ==> s.event && s.copied == s.frames)
    && (!s.status.Success? ==> s.copied == [])
    && (s.status.Failed? <==> s.apc.NoApc? && (s.caller.Leaving? || s.caller.Returned?))
    && (s.status.Pending? ==> !s.caller.Leaving? && !s.caller.Returned?)
    && (s.event ==> s.apc.Signalled? || s.apc.Gone?)
    && (s.written ==> s.apc.Written? || s.apc.Signalled? || s.apc.Gone?)
  }

  predicate ByCaller(e: Step) {
    !e.Deliver? && !e.Capture? && !e.Signal? && !e.Cleanup? && !e.RundownApc? && !e.CleanupRundown?
  }

  lemma CallerKeepsInv(s: State, e: Step)
    requires Inv(s) && Enabled(s, e) && ByCaller(e)
    ensures Inv(After(s, e))
  {
  }

  lemma ApcKeepsInv(s: State, e: Step)
    requires Inv(s) && Enabled(s, e) && !ByCaller(e)
    ensures Inv(After(s, e))
  {
  }

  lemma StepKeepsInv(s: State, s': State)
    requires Inv(s) && Next(s, s')
    ensures Inv(s')
  {
    var e :| Enabled(s, e) && s' == After(s, e);
    hide Inv, After, Enabled;
    if ByCaller(e) {
      CallerKeepsInv(s, e);
    } else {
      ApcKeepsInv(s, e);
    }
  }

  lemma InvInEveryRun(run: seq<State>, i: nat)
    requires IsRun(run, Init, Next) && i < |run|
    ensures Inv(run[i])
  {
    forall s, s' | Inv(s) && Next(s, s') ensures Inv(s') { StepKeepsInv(s, s'); }
    InvariantOnRun(run, Init, Next, Inv);
  }

  // ---- what every run guarantees ----

  /** A party about to touch the object: its next step reads or writes it. */
  predicate Touches(s: State) {
    (!s.caller.Begin? && !s.caller.Returned?) || (!s.apc.NoApc? && !s.apc.Gone?)
  }

  /**
   The object outlives both parties, is freed exactly once, when both are done with it, and the
   frames the caller returns are those the other thread finished writing, within the limit.
   */
  lemma ObjectOutlivesBoth(run: seq<State>, i: nat)
    requires IsRun(run, Init, Next) && i < |run|
    ensures
      var s := run[i];
      && (Touches(s) ==> s.count > 0 && s.freed == 0)
      && (!Touches(s) && s.created ==> s.freed == 1)
      && s.freed <= 1
      && (s.caller.Copying? || s.status.Success? ==> s.event && s.written && |s.frames| <= s.limit)
      && (s.status.Success? ==> s.copied == s.frames) && (!s.status.Success? ==> s.copied == [])
  {
    InvInEveryRun(run, i);
  }

  lemma EventStep(s: State, s': State)
    requires Inv(s) && Next(s, s')
    ensures s.event ==> s'.event && s'.frames == s.frames
    ensures NoEvent(s) ==> NoEvent(s')
  {
  }

  /** The APC has left the system without its kernel routine having signalled anything. */
  predicate NoEvent(s: State) {
    !s.event && (s.apc.RunDown? || s.apc.Gone?)
  }

  /** Frames the caller may be reading no longer change. */
  lemma FramesAreFinal(run: seq<State>, i: nat, j: nat)
    requires IsRun(run, Init, Next) && i <= j < |run| && run[i].event
    ensures run[j].event && run[j].frames == run[i].frames
  {
    var frames := run[i].frames;
    forall k | 0 <= k < |run| ensures Inv(run[k]) { InvInEveryRun(run, k); }
    forall s, s' | Inv(s) && s.event && Next(s, s') ensures s'.event && s'.frames == s.frames { EventStep(s, s'); }
    hide Inv, Next, Init;
    StaysOnRun(run, Init, Next, Inv, (s: State) => s.event && s.frames == frames, i, j);
  }

  /** Only the kernel routine sets the event: after a rundown or removal of the APC no wait ever succeeds. */
  lemma NoEventAfterRundown(run: seq<State>, i: nat, j: nat)
    requires IsRun(run, Init, Next) && i <= j < |run| && NoEvent(run[i])
    ensures NoEvent(run[j]) && !run[j].caller.Copying? && !run[j].status.Success?
  {
    InvInEveryRun(run, j);
    forall k | 0 <= k < |run| ensures Inv(run[k]) { InvInEveryRun(run, k); }
    forall s, s' | Inv(s) && NoEvent(s) && Next(s, s') ensures NoEvent(s') { EventStep(s, s'); }
    hide Next, Init;
    StaysOnRun(run, Init, Next, Inv, NoEvent, i, j);
  }

  // ---- what the caller is told ----

  ghost predicate Moves(s: State, e: Step, s': State) {
    Enabled(s, e) && s' == After(s, e)
  }

  lemma InvOnTrace(run: seq<State>, trace: seq<Step>, k: nat)
    requires IsTrace(run, trace, Init, Moves) && k < |run|
    ensures Inv(run[k])
  {
    forall s, e, s' | Inv(s) && Moves(s, e, s') ensures Inv(s') { StepKeepsInv(s, s'); }
    hide Moves;
    TraceInvariant(run, trace, Init, Moves, Inv, k);
  }

  ghost predicate Happened(trace: seq<Step>, k: nat, p: Step -> bool)
    requires k <= |trace|
  {
    exists j :: 0 <= j < k && p(trace[j])
  }

  predicate Fails(e: Step) {
    e == Create(false) || e == Insert(false)
  }

  /** The caller has been woken, or has returned what it then copied. */
  predicate Woken(s: State) {
    s.caller.Copying? || s.status.Success?
  }

  predicate Failing(s: State) {
    s.caller.Undoing? || s.status.Failed?
  }

  lemma OutcomeStep(s: State, e: Step, s': State)
    requires Inv(s) && Moves(s, e, s')
    ensures Woken(s') <==> Woken(s) || e.WaitDone?
    ensures s'.status.Timeout? <==> s.status.Timeout? || e.WaitTimeout?
    ensures Failing(s') <==> Failing(s) || Fails(e)
  {
  }

  lemma HappenedNext(trace: seq<Step>, k: nat, p: Step -> bool)
    requires k < |trace|
    ensures Happened(trace, k + 1, p) <==> Happened(trace, k, p) || p(trace[k])
  {
  }

  lemma {:induction false} OutcomeUntil(run: seq<State>, trace: seq<Step>, k: nat)
    requires IsTrace(run, trace, Init, Moves) && k < |run| == |trace| + 1
    ensures Woken(run[k]) <==> Happened(trace, k, (e: Step) => e.WaitDone?)
    ensures run[k].status.Timeout? <==> Happened(trace, k, (e: Step) => e.WaitTimeout?)
    ensures Failing(run[k]) <==> Happened(trace, k, Fails)
  {
    if k > 0 {
      var n := k - 1;
      OutcomeUntil(run, trace, n);
      InvOnTrace(run, trace, n);
      assert Moves(run[n], trace[n], run[n + 1]);
      OutcomeStep(run[n], trace[n], run[k]);
      hide Happened, Moves, Inv, Init, Woken, Failing;
      HappenedNext(trace, n, (e: Step) => e.WaitDone?);
      HappenedNext(trace, n, (e: Step) => e.WaitTimeout?);
      HappenedNext(trace, n, Fails);
    }
  }

  /** What is returned is what happened: the wait was satisfied, it timed out, or the object or the APC could not be had. */
  lemma ReturnsOutcome(run: seq<State>, trace: seq<Step>, k: nat)
    requires IsTrace(run, trace, Init, Moves) && k < |run| == |trace| + 1 && run[k].caller.Returned?
    ensures run[k].status.Success? <==> Happened(trace, k, (e: Step) => e.WaitDone?)
    ensures run[k].status.Timeout? <==> Happened(trace, k, (e: Step) => e.WaitTimeout?)
    ensures run[k].status.Failed? <==> Happened(trace, k, Fails)
    ensures !run[k].status.Pending?
  {
    OutcomeUntil(run, trace, k);
    InvOnTrace(run, trace, k);
  }

  /** The event is set from the kernel routine's signal on, and by nothing else; a waiting caller can then go on to success. */
  lemma {:induction false} SignalIsSeen(run: seq<State>, trace: seq<Step>, k: nat)
    requires IsTrace(run, trace, Init, Moves) && k < |run| == |trace| + 1
    ensures run[k].event <==> Happened(trace, k, (e: Step) => e.Signal?)
    ensures run[k].event && run[k].caller.Waiting? ==> Enabled(run[k], WaitDone) && !Enabled(run[k], WaitTimeout)
  {
    if k > 0 {
      var n := k - 1;
      SignalIsSeen(run, trace, n);
      assert Moves(run[n], trace[n], run[n + 1]);
      SignalStep(run[n], trace[n], run[k]);
      HappenedNext(trace, n, (e: Step) => e.Signal?);
      hide Happened, Moves, Init;
    }
  }

  lemma SignalStep(s: State, e: Step, s': State)
    requires Moves(s, e, s')
    ensures s'.event <==> s.event || e.Signal?
  {
  }

  lemma FramesStep(s: State, e: Step, s': State)
    requires Inv(s) && Moves(s, e, s')
    ensures s.written ==> s'.written && s'.frames == s.frames
    ensures !s.written && s'.written ==> e.Capture? && s'.frames == e.frames
    ensures e.Capture? ==> !s.written && s'.written && s'.frames == e.frames
  {
  }

  /** Where the frames come from: the one capture there was. */
  lemma {:induction false} CapturedAt(run: seq<State>, trace: seq<Step>, k: nat) returns (c: nat)
    requires IsTrace(run, trace, Init, Moves) && k < |run| == |trace| + 1 && run[k].written
    ensures c < k && trace[c].Capture? && run[k].frames == trace[c].frames
    ensures forall j :: 0 <= j < k && trace[j].Capture? ==> j == c
  {
    if k == 0 {
      assert false;
    } else {
      var n := k - 1;
      InvOnTrace(run, trace, n);
      assert Moves(run[n], trace[n], run[n + 1]);
      FramesStep(run[n], trace[n], run[k]);
      if run[n].written {
        c := CapturedAt(run, trace, n);
      } else {
        c := n;
        NoneCaptured(run, trace, n);
      }
    }
  }

  lemma {:induction false} NoneCaptured(run: seq<State>, trace: seq<Step>, k: nat)
    requires IsTrace(run, trace, Init, Moves) && k < |run| == |trace| + 1 && !run[k].written
    ensures forall j :: 0 <= j < k ==> !trace[j].Capture?
  {
    if k > 0 {
      var n := k - 1;
      InvOnTrace(run, trace, n);
      assert Moves(run[n], trace[n], run[n + 1]);
      FramesStep(run[n], trace[n], run[k]);
      NoneCaptured(run, trace, n);
    }
  }

  /** A successful caller has the frames the kernel routine's one frame walk found. */
  lemma SuccessReturnsFrames(run: seq<State>, trace: seq<Step>, k: nat) returns (c: nat)
    requires IsTrace(run, trace, Init, Moves) && k < |run| == |trace| + 1 && run[k].status.Success?
    ensures c < k && trace[c].Capture? && run[k].copied == trace[c].frames
    ensures forall j :: 0 <= j < k && trace[j].Capture? ==> j == c
  {
    InvOnTrace(run, trace, k);
    hide Init, Moves;
    c := CapturedAt(run, trace, k);
  }

  /** Until the caller has returned it has a next step, and so has an APC until it is gone. */
  lemma NeverStuck(s: State)
    requires Inv(s)
    ensures !s.caller.Returned? ==> exists e :: Enabled(s, e) && ByCaller(e)
    ensures !s.apc.NoApc? && !s.apc.Gone? ==> exists e :: Enabled(s, e) && !ByCaller(e)
  {
    var byCaller := match s.caller
      case Begin => Create(true)
      case Created => Reference
      case Referenced => Insert(true)
      case Undoing => Undo
      case Waiting => if s.event then WaitDone else WaitTimeout
      case Copying => Copy
      case Removing => Remove(false)
      case RemovedApc => CleanupRemoved
      case Leaving => Leave
      case Returned => Undo;
    assert !s.caller.Returned? ==> Enabled(s, byCaller) && ByCaller(byCaller);
    var byApc := match s.apc
      case Queued => Deliver
      case Running => Capture([])
      case Written => Signal
      case Signalled => Cleanup
      case RunDown => CleanupRundown
      case _ => Deliver;
    assert !s.apc.NoApc? && !s.apc.Gone? ==> Enabled(s, byApc) && !ByCaller(byApc);
  }
}
