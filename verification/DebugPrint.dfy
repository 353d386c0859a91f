/**
 Debug output lines pass through a few slots: callbacks fill them under a lock and queue the slot's
 DPC, any DPC that gets the lock empties them all. No accepted line is stranded, lost or repeated.
 */
module DebugPrint {
  import opened Basics
  import opened Runs

  type Text = seq<char>

  /** A line with who printed it, when, and the component and level it was printed for. */
  datatype Line = Line(text: Text, component: nat, level: nat, time: int, thread: nat)

  /** The line with as much of its text as fits. */
  function Clipped(line: Line, room: nat): (r: Line)
    ensures r.text <= line.text && |r.text| == Min(|line.text|, room)
    ensures r.(text := line.text) == line
  {
    line.(text := line.text[..Min(|line.text|, room)])
  }

  // ---- the slots, filled and emptied under the lock ----

  class Slots {
    const slots: array<Line>
    var next: nat
    /** The room for text in a slot. */
    const room: nat

    ghost predicate Valid()
      reads this
    {
      next <= slots.Length
    }

    ghost function Lines(): seq<Line>
      reads this, slots
      requires Valid()
    {
      slots[..next]
    }

    constructor (count: nat, room: nat)
      ensures Valid() && Lines() == [] && slots.Length == count && this.room == room && fresh(slots)
    {
      slots := new Line[count](_ => Line([], 0, 0, 0, 0));
      next := 0;
      this.room := room;
    }

    /** The callback's locked section: the next slot takes the line, unless it is empty or no slot is left. */
    method Accept(line: Line) returns (accepted: bool)
      requires Valid()
      modifies this`next, slots
      ensures Valid()
      ensures accepted <==> line.text != [] && |old(Lines())| < slots.Length
      ensures Lines() == if accepted then old(Lines()) + [Clipped(line, room)] else old(Lines())
    {
      if line.text == [] || next >= slots.Length {
        return false;
      }
      slots[next] := Clipped(line, room);
      next := next + 1;
      accepted := true;
    }

    /**
     The flush: one message for each filled slot, in order; a slot whose message could not be
     allocated loses its line. `remaining` is the room for text in a message.
     */
    method Flush(obtained: seq<bool>, remaining: nat) returns (sent: seq<Line>)
      requires Valid() && |obtained| >= next
      modifies this`next
      ensures Valid() && Lines() == []
      ensures sent == Delivered(old(Lines()), obtained, remaining)
    {
      sent := [];
      var i := 0;
      while i < next
        invariant 0 <= i <= next && next == old(next)
        invariant sent == Delivered(slots[..i], obtained, remaining)
      {
        DeliveredNext(slots[..i], slots[i], obtained, remaining);
        assert slots[..i + 1] == slots[..i] + [slots[i]];
        if obtained[i] {
          sent := sent + [Clipped(slots[i], remaining)];
        }
        i := i + 1;
      }
      next := 0;
    }
  }

  /** What a flush of the lines sends. */
  function Delivered(lines: seq<Line>, obtained: seq<bool>, remaining: nat): seq<Line>
    requires |lines| <= |obtained|
  {
    if lines == [] then []
    else (if obtained[0] then [Clipped(lines[0], remaining)] else []) + Delivered(lines[1..], obtained[1..], remaining)
  }

  lemma {:induction false} DeliveredNext(lines: seq<Line>, line: Line, obtained: seq<bool>, remaining: nat)
    requires |lines| < |obtained|
    ensures Delivered(lines + [line], obtained, remaining)
         == Delivered(lines, obtained, remaining) + if obtained[|lines|] then [Clipped(line, remaining)] else []
  {
    var sent := if obtained[|lines|] then [Clipped(line, remaining)] else [];
    if lines == [] {
      assert [line][1..] == [];
      assert lines + [line] == [line];
    } else {
      assert (lines + [line])[1..] == lines[1..] + [line];
      DeliveredNext(lines[1..], line, obtained[1..], remaining);
      var first := if obtained[0] then [Clipped(lines[0], remaining)] else [];
      hide Clipped;
      assert first + (Delivered(lines[1..], obtained[1..], remaining) + sent)
          == (first + Delivered(lines[1..], obtained[1..], remaining)) + sent;
    }
  }

  // ---- callbacks, DPCs and the stop routine ----

  /** A callback between its locked section and the insertion of its slot's DPC. */
  datatype Callback = Idle | ToInsert(slot: nat)

  datatype Stop = Running | Stopping | Stopped

  /** `queued` are the slots whose DPC is queued, `waiting` the DPCs that run but do not have the lock yet. */
  datatype State = State(
    count: nat,
    lines: seq<Text>,
    callbacks: seq<Callback>,
    queued: set<nat>,
    waiting: nat,
    stop: Stop,
    accepted: seq<Text>,
    taken: seq<Text>)

  datatype Step =
    | Print(t: nat, text: Text)
    | InsertDpc(t: nat)
    | RunDpc(slot: nat)
    | FlushDpc
    | BeginStop
    | RemoveDpc(slot: nat)
    | EndStop

  predicate Enabled(s: State, e: Step) {
    match e
    case Print(t, text) => t < |s.callbacks| && s.callbacks[t].Idle? && s.stop.Running?
    case InsertDpc(t) => t < |s.callbacks| && s.callbacks[t].ToInsert?
    case RunDpc(slot) => slot in s.queued
    case FlushDpc => s.waiting > 0
    // unregistering the callback returns when no callback is running any more
    case BeginStop => s.stop.Running? && forall t :: 0 <= t < |s.callbacks| ==> s.callbacks[t].Idle?
    case RemoveDpc(slot) => s.stop.Stopping? && slot in s.queued
    case EndStop => s.stop.Stopping? && s.queued == {} && s.waiting == 0
  }

  function Flushed(s: State): State {
    s.(taken := s.taken + s.lines, lines := [])
  }

  function After(s: State, e: Step): State
    requires Enabled(s, e)
  {
    match e
    case Print(t, text) =>
      if text == [] || |s.lines| >= s.count then s
      else s.(lines := s.lines + [text], accepted := s.accepted + [text], callbacks := s.callbacks[t := ToInsert(|s.lines|)])
    // inserting a DPC that is queued already changes nothing
    case InsertDpc(t) => s.(queued := s.queued + {s.callbacks[t].slot}, callbacks := s.callbacks[t := Idle])
    case RunDpc(slot) => s.(queued := s.queued - {slot}, waiting := s.waiting + 1)
    case FlushDpc => Flushed(s).(waiting := s.waiting - 1)
    case BeginStop => s.(stop := Stopping)
    case RemoveDpc(slot) => s.(queued := s.queued - {slot})
    case EndStop => Flushed(s).(stop := Stopped)
  }

  ghost predicate Next(s: State, s': State) {
    exists e :: Enabled(s, e) && s' == After(s, e)
  }

  ghost predicate Init(s: State) {
    && s.lines == [] && s.queued == {} && s.waiting == 0 && s.stop == Running && s.accepted == [] && s.taken == []
    && forall t :: 0 <= t < |s.callbacks| ==> s.callbacks[t].Idle?
  }

  /** Somebody is going to flush. */
  ghost predicate FlushAhead(s: State) {
    || (exists t :: 0 <= t < |s.callbacks| && s.callbacks[t].ToInsert?)
    || s.queued != {}
    || s.waiting > 0
    || s.stop.Stopping?
  }

  ghost predicate Inv(s: State) {
    && s.accepted == s.taken + s.lines
    && |s.lines| <= s.count
    && (s.lines != [] ==> FlushAhead(s))
    && (forall t :: 0 <= t < |s.callbacks| && s.callbacks[t].ToInsert? ==> s.callbacks[t].slot < s.count && s.stop.Running?)
    && (forall slot :: slot in s.queued ==> slot < s.count)
    && (s.stop.Stopped? ==> s.lines == [])
  }

  lemma FlushKept(s: State, e: Step)
    requires Inv(s) && Enabled(s, e) && After(s, e).lines != []
    ensures FlushAhead(After(s, e))
  {
    var s' := After(s, e);
    match e
    case Print(t, text) =>
      if s' != s {
        assert s'.callbacks[t].ToInsert?;
      }
    case InsertDpc(t) => assert s.callbacks[t].slot in s'.queued;
    case RunDpc(_) => assert s'.waiting > 0;
    case FlushDpc => assert false;
    case BeginStop => assert s'.stop.Stopping?;
    case RemoveDpc(_) => assert s'.stop.Stopping?;
    case EndStop => assert false;
  }

  lemma StepKeepsInv(s: State, s': State)
    requires Inv(s) && Next(s, s')
    ensures Inv(s')
  {
    var e :| Enabled(s, e) && s' == After(s, e);
    if s'.lines != [] {
      FlushKept(s, e);
    }
    hide FlushAhead;
    assert (s.taken + s.lines) + [] == s.taken + s.lines;
  }

  lemma InvInEveryRun(run: seq<State>, i: nat)
    requires IsRun(run, Init, Next) && i < |run|
    ensures Inv(run[i])
  {
    forall s, s' | Inv(s) && Next(s, s') ensures Inv(s') { StepKeepsInv(s, s'); }
    InvariantOnRun(run, Init, Next, Inv);
  }

  /**
   In every run: the lines accepted are those taken by flushes followed by those in the slots, in the
   same order; filled slots always have a flush ahead; and the slots never overflow.
   */
  lemma NoLineStranded(run: seq<State>, i: nat)
    requires IsRun(run, Init, Next) && i < |run|
    ensures run[i].accepted == run[i].taken + run[i].lines
    ensures run[i].lines != [] ==> FlushAhead(run[i])
    ensures |run[i].lines| <= run[i].count
    ensures run[i].stop.Stopped? ==> run[i].taken == run[i].accepted
  {
    InvInEveryRun(run, i);
  }

  /** What is ahead can happen: filled slots always leave a step towards the flush enabled. */
  lemma FlushIsReachable(s: State) returns (e: Step)
    requires Inv(s) && s.lines != []
    ensures Enabled(s, e) && (e.InsertDpc? || e.RunDpc? || e.FlushDpc? || e.RemoveDpc? || e.EndStop?)
    ensures (e.FlushDpc? || e.EndStop?) ==> After(s, e).lines == [] && After(s, e).taken == s.accepted
  {
    if s.waiting > 0 {
      e := FlushDpc;
    } else if slot :| slot in s.queued {
      e := RunDpc(slot);
    } else if t: nat :| t < |s.callbacks| && s.callbacks[t].ToInsert? {
      e := InsertDpc(t);
    } else {
      e := EndStop;
    }
  }

  // ---- what is accepted ----

  ghost predicate Moves(s: State, e: Step, s': State) {
    Enabled(s, e) && s' == After(s, e)
  }

  /** The texts printed up to `k` that were not empty and found a free slot, in order. */
  function Printed(run: seq<State>, trace: seq<Step>, k: nat): seq<Text>
    requires |run| == |trace| + 1 && k <= |trace|
  {
    if k == 0 then []
    else
      Printed(run, trace, k - 1)
      + match trace[k - 1]
        case Print(_, text) => if text != [] && |run[k - 1].lines| < run[k - 1].count then [text] else []
        case _ => []
  }

  lemma PrintStep(s: State, e: Step, s': State)
    requires Moves(s, e, s')
    ensures s'.accepted == s.accepted + if e.Print? && e.text != [] && |s.lines| < s.count then [e.text] else []
  {
  }

  /** A line is lost only when it is printed while all slots are filled: all others reach a flush, in order. */
  lemma {:induction false} AcceptedIsPrinted(run: seq<State>, trace: seq<Step>, k: nat)
    requires IsTrace(run, trace, Init, Moves) && k <= |trace|
    ensures run[k].accepted == Printed(run, trace, k)
  {
    if k > 0 {
      AcceptedIsPrinted(run, trace, k - 1);
      assert Moves(run[k - 1], trace[k - 1], run[k - 1 + 1]);
      PrintStep(run[k - 1], trace[k - 1], run[k]);
      hide Moves, Init;
    }
  }

  /** A flush takes everything accepted so far. */
  lemma FlushTakesAll(s: State, e: Step, s': State)
    requires Inv(s) && Moves(s, e, s') && (e.FlushDpc? || e.EndStop?)
    ensures s'.lines == [] && s'.taken == s.accepted == s'.accepted
  {
  }
}
