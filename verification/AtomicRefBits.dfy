/**
 The machine the driver runs: slot words are 64-bit integers changed by masks, an add, a subtract
 and a bit reset. Reading each word through Unpack makes every step a step of AtomicRefLock.
 */
module AtomicRefBits {
  import opened SlotWord
  import opened AtomicRef
  import opened AtomicRefLock
  import opened Runs
  import opened Tally

  type Word = bv64
  type BitState = State<Word>

  function BitStep(pc: Pc<Word>, w: Word): Local<Word> {
    match pc
    case SharedRead(i) =>
      if w & LOCK_MASK >= SHARED_MAX then Local(pc, w) else Local(SharedCas(i, w), w)
    case SharedCas(i, seen) =>
      if w == seen then Local(SharedHeld(i), seen + 1) else Local(SharedRead(i), w)
    case SharedHeld(i) =>
      var obj := Ptr(w & OBJECT_MASK);
      if obj != NULL then Local(SharedReference(i, obj), w) else Local(SharedRelease(i, NULL), w)
    case SharedRelease(i, obj) => Local(Returned(obj), w - 1)
    case ExclusiveRead(i, obj, assign) =>
      if w & EXCLUSIVE_FLAG != 0 then Local(pc, w) else Local(ExclusiveCas(i, w, obj, assign), w)
    case ExclusiveCas(i, seen, obj, assign) =>
      if w == seen then Local(ExclusiveDrain(i, seen, obj, assign), seen | EXCLUSIVE_FLAG)
      else Local(ExclusiveRead(i, obj, assign), w)
    case ExclusiveDrain(i, seen, obj, assign) =>
      if seen & SHARED_MAX != 0 then Local(ExclusiveDrain(i, w, obj, assign), w)
      else Local(ExclusiveHeld(i, obj, assign), w)
    case ExclusiveHeld(i, obj, assign) => Local(ExclusiveStore(i, obj, Ptr(w & OBJECT_MASK), assign), w)
    case ExclusiveStore(i, obj, previous, assign) =>
      Local(ExclusiveRelease(i, previous, assign), obj.address | EXCLUSIVE_FLAG)
    case ExclusiveRelease(i, previous, assign) => Local(AfterStore(previous, assign), w & !EXCLUSIVE_FLAG)
    case _ => Local(pc, w)
  }

  ghost predicate BitNext(s: BitState, s': BitState) {
    Next(BitStep, s, s')
  }

  ghost predicate BitMoves(s: BitState, m: Move<Event>, s': BitState) {
    StepBy(BitStep, s, s', m.t, m.e)
  }

  ghost predicate BitInit(s: BitState) {
    Init(0, s)
  }

  // ---- reading a bit-level state ----

  function LiftPc(pc: Pc<Word>): Pc<Lock> {
    match pc
    case Idle => Idle
    case SharedRead(i) => SharedRead(i)
    case SharedCas(i, seen) => SharedCas(i, Unpack(seen))
    case SharedHeld(i) => SharedHeld(i)
    case SharedReference(i, obj) => SharedReference(i, obj)
    case SharedRelease(i, obj) => SharedRelease(i, obj)
    case ExclusiveRead(i, obj, assign) => ExclusiveRead(i, obj, assign)
    case ExclusiveCas(i, seen, obj, assign) => ExclusiveCas(i, Unpack(seen), obj, assign)
    case ExclusiveDrain(i, seen, obj, assign) => ExclusiveDrain(i, Unpack(seen), obj, assign)
    case ExclusiveHeld(i, obj, assign) => ExclusiveHeld(i, obj, assign)
    case ExclusiveStore(i, obj, previous, assign) => ExclusiveStore(i, obj, previous, assign)
    case ExclusiveRelease(i, previous, assign) => ExclusiveRelease(i, previous, assign)
    case Returned(obj) => Returned(obj)
    case Dereferencing(obj) => Dereferencing(obj)
    case Deleting(obj) => Deleting(obj)
  }

  function LiftThread(th: Thread<Word>): Thread<Lock> {
    Thread(LiftPc(th.pc), th.held)
  }

  function Lift(s: BitState): LockState {
    State(seq(|s.words|, i requires 0 <= i < |s.words| => Unpack(s.words[i])),
          seq(|s.threads|, t requires 0 <= t < |s.threads| => LiftThread(s.threads[t])),
          s.objects, s.total, s.created, s.deleted)
  }

  // ---- refinement ----

  /** The bit-level step of a thread on its word is the lock-level step on the word's meaning. */
  ghost predicate LocalRefines(pc: Pc<Word>, w: Word) {
    && LiftPc(BitStep(pc, w).pc) == LockStep(LiftPc(pc), Unpack(w)).pc
    && Unpack(BitStep(pc, w).word) == LockStep(LiftPc(pc), Unpack(w)).word
  }

  lemma SharedCasRefines(pc: Pc<Word>, w: Word)
    requires pc.SharedCas? && PcFits(LiftPc(pc), Unpack(w))
    ensures LocalRefines(pc, w)
  {
    hide Unpack;
    if Unpack(w) == Unpack(pc.seen) {
      UnpackInjective(w, pc.seen);
      SharedGuard(w);
      IncrementShared(w);
    }
  }

  lemma ExclusiveCasRefines(pc: Pc<Word>, w: Word)
    requires pc.ExclusiveCas?
    ensures LocalRefines(pc, w)
  {
    hide Unpack;
    if Unpack(w) == Unpack(pc.seen) {
      UnpackInjective(w, pc.seen);
      SetExclusive(w);
    }
  }

  lemma ReleaseRefines(pc: Pc<Word>, w: Word)
    requires pc.SharedRelease? || pc.ExclusiveRelease?
    requires pc.SharedRelease? ==> Unpack(w).shared > 0
    ensures LocalRefines(pc, w)
  {
    hide Unpack;
    if pc.SharedRelease? {
      DecrementShared(w);
    } else {
      ResetExclusive(w);
    }
  }

  lemma ReadRefines(pc: Pc<Word>, w: Word)
    requires pc.SharedRead? || pc.SharedHeld? || pc.ExclusiveRead? || pc.ExclusiveDrain? || pc.ExclusiveHeld?
    ensures LocalRefines(pc, w)
  {
    if pc.SharedRead? {
      SharedGuard(w);
    } else if pc.ExclusiveDrain? {
      DrainGuard(pc.seen);
    }
  }

  lemma LocalStepRefines(pc: Pc<Word>, w: Word)
    requires pc.OnSlot() && PcFits(LiftPc(pc), Unpack(w)) && (pc.SharedRelease? ==> Unpack(w).shared > 0)
    ensures LocalRefines(pc, w)
  {
    hide Unpack;
    match pc
    case SharedCas(_, _) => SharedCasRefines(pc, w);
    case ExclusiveCas(_, _, _, _) => ExclusiveCasRefines(pc, w);
    case SharedRelease(_, _) => ReleaseRefines(pc, w);
    case ExclusiveRelease(_, _, _) => ReleaseRefines(pc, w);
    case ExclusiveStore(_, obj, _, _) => StoreWord(obj);
    case _ => ReadRefines(pc, w);
  }

  lemma LiftUpdate(s: BitState, s': BitState, t: nat)
    requires t < |s.threads| == |s'.threads| && s'.threads == s.threads[t := s'.threads[t]]
    ensures Lift(s').threads == Lift(s).threads[t := LiftThread(s'.threads[t])]
  {
  }

  lemma SlotStepRefines(s: BitState, s': BitState, t: nat)
    requires Inv(Lift(s)) && StepBy(BitStep, s, s', t, Advance) && s.threads[t].pc.OnSlot()
    ensures Lift(s).threads[t].pc.OnSlot() && Lift(s).threads[t].pc.slot < |s.words|
    ensures Lift(s') == SlotPost(Lift(s), t)
  {
    hide Unpack, BitStep, LockStep;
    var pc := s.threads[t].pc;
    var w := s.words[pc.slot];
    var l := Lift(s);
    assert l.threads[t] == LiftThread(s.threads[t]) && l.words[pc.slot] == Unpack(w);
    InvAsserts(l, t);
    hide Inv;
    LocalStepRefines(pc, w);
    LiftUpdate(s, s', t);
    assert Lift(s').words == l.words[pc.slot := Unpack(s'.words[pc.slot])];
  }

  /** A step off the slot touches no word: its thread and the counts change alike in both machines. */
  lemma OffSlotStepRefines(s: BitState, s': BitState, t: nat, e: Event)
    requires StepBy(BitStep, s, s', t, e) && (e.Advance? ==> !s.threads[t].pc.OnSlot())
    ensures StepBy(LockStep, Lift(s), Lift(s'), t, e)
  {
    var l := Lift(s);
    assert l.threads[t] == LiftThread(s.threads[t]);
    LiftUpdate(s, s', t);
    assert Lift(s').words == l.words;
    if e.Advance? {
      AdvanceRefines(s, t);
    } else {
      CallRefines(s, t, e);
    }
  }

  lemma AdvanceRefines(s: BitState, t: nat)
    requires t < |s.threads| && Enabled(s, t, Advance) && !s.threads[t].pc.OnSlot()
    ensures Lift(s).threads[t] == LiftThread(s.threads[t]) && Enabled(Lift(s), t, Advance)
    ensures
      var b, l := Post(BitStep, s, t, Advance), Post(LockStep, Lift(s), t, Advance);
      && l.threads == Lift(s).threads[t := LiftThread(b.threads[t])] && l.words == Lift(s).words
      && (l.objects, l.total, l.created, l.deleted) == (b.objects, b.total, b.created, b.deleted)
  {
    hide BitStep, LockStep, Unpack, CallPost;
  }

  lemma CalledLifts(th: Thread<Word>, e: Event)
    requires !e.Advance? && th.pc.Idle?
    ensures LiftThread(Called(th, e)) == Called(LiftThread(th), e)
  {
    hide One, Unpack;
  }

  lemma CallEnabled(s: BitState, t: nat, e: Event)
    requires t < |s.threads| && Enabled(s, t, e) && !e.Advance?
    ensures s.threads[t].pc.Idle? && Lift(s).threads[t] == LiftThread(s.threads[t]) && Enabled(Lift(s), t, e)
  {
    hide Unpack;
  }

  lemma CallObjectsLift(s: BitState, t: nat, e: Event)
    requires t < |s.threads| && Enabled(s, t, e) && !e.Advance? && Enabled(Lift(s), t, e)
    ensures
      var b, l := CallObjects(s, e), CallObjects(Lift(s), e);
      && b.threads == s.threads && l.threads == Lift(s).threads && l.words == Lift(s).words
      && (l.objects, l.total, l.created, l.deleted) == (b.objects, b.total, b.created, b.deleted)
  {
    hide Unpack, LiftThread;
  }

  lemma CallRefines(s: BitState, t: nat, e: Event)
    requires t < |s.threads| && Enabled(s, t, e) && !e.Advance?
    ensures Lift(s).threads[t] == LiftThread(s.threads[t]) && Enabled(Lift(s), t, e)
    ensures
      var b, l := Post(BitStep, s, t, e), Post(LockStep, Lift(s), t, e);
      && l.threads == Lift(s).threads[t := LiftThread(b.threads[t])] && l.words == Lift(s).words
      && (l.objects, l.total, l.created, l.deleted) == (b.objects, b.total, b.created, b.deleted)
  {
    CallEnabled(s, t, e);
    CallObjectsLift(s, t, e);
    CalledLifts(s.threads[t], e);
    hide BitStep, LockStep, AdvancePost, Called, CallObjects, Lift, Enabled;
  }

  ghost predicate BitInv(s: BitState) {
    Inv(Lift(s))
  }

  /** Every move on bits is the same move on (object, exclusive, shared): no carry, no borrow, no lost address bit. */
  lemma MoveRefines(s: BitState, m: Move<Event>, s': BitState)
    requires BitInv(s) && BitMoves(s, m, s')
    ensures LockMoves(Lift(s), m, Lift(s')) && BitInv(s')
  {
    var t, e := m.t, m.e;
    if e.Advance? && s.threads[t].pc.OnSlot() {
      SlotStepRefines(s, s', t);
      assert StepBy(LockStep, Lift(s), Lift(s'), t, e);
    } else {
      OffSlotStepRefines(s, s', t, e);
    }
    MoveKeepsInv(Lift(s), m, Lift(s'));
  }

  lemma StepRefines(s: BitState, s': BitState)
    requires BitInv(s) && BitNext(s, s')
    ensures LockNext(Lift(s), Lift(s')) && BitInv(s')
  {
    var t: nat, e: Event :| StepBy(BitStep, s, s', t, e);
    MoveRefines(s, Move(t, e), s');
    assert StepBy(LockStep, Lift(s), Lift(s'), t, e);
  }

  lemma InitRefines(s: BitState)
    requires BitInit(s)
    ensures LockInit(Lift(s)) && BitInv(s)
  {
    var l := Lift(s);
    assert Unpack(0) == Lock(NULL, false, 0);
    forall i | 0 <= i < |l.words| ensures l.words[i] == Lock(NULL, false, 0) {
      assert s.words[i] in s.words;
    }
    forall t | 0 <= t < |l.threads| ensures l.threads[t] == Thread(Idle, multiset{}) {
      assert s.threads[t] in s.threads;
    }
    InitHolds(l);
  }

  /** The word of a slot spells out the readers and the writer bit for bit, in every run. */
  lemma WordsDecodeInEveryRun(run: seq<BitState>, j: nat, i: nat)
    requires IsRun(run, BitInit, BitNext) && j < |run| && i < |run[j].words|
    ensures
      var s := run[j];
      && BitInv(s)
      && SharedCount(s.words[i]) == Total(Lift(s).threads, ReaderOf, i) <= 7
      && (s.words[i] & EXCLUSIVE_FLAG != 0 <==> Total(Lift(s).threads, WriterOf, i) == 1)
      && Total(Lift(s).threads, WriterOf, i) <= 1
      && (Ptr(s.words[i] & OBJECT_MASK) != NULL ==>
          Ptr(s.words[i] & OBJECT_MASK) in s.objects && s.objects[Ptr(s.words[i] & OBJECT_MASK)] > 0)
  {
    forall s | BitInit(s) ensures BitInv(s) { InitRefines(s); }
    forall s, s' | BitInv(s) && BitNext(s, s') ensures BitInv(s') { StepRefines(s, s'); }
    InvariantOnRun(run, BitInit, BitNext, BitInv);
    assert SlotOk(Lift(run[j]), i);
    if Lift(run[j]).words[i].obj != NULL {
      StoredIsLive(Lift(run[j]), i);
    }
  }

  /** A run on bits, read through Lift, is a run of the lock machine. */
  lemma RunRefines(run: seq<BitState>)
    requires IsRun(run, BitInit, BitNext)
    ensures IsRun(seq(|run|, i requires 0 <= i < |run| => Lift(run[i])), LockInit, LockNext)
  {
    forall s | BitInit(s) ensures BitInv(s) { InitRefines(s); }
    forall s, s' | BitInv(s) && BitNext(s, s') ensures BitInv(s') { StepRefines(s, s'); }
    InvariantOnRun(run, BitInit, BitNext, BitInv);
    var lifted := seq(|run|, i requires 0 <= i < |run| => Lift(run[i]));
    InitRefines(run[0]);
    forall i | 0 <= i < |lifted| - 1 ensures LockNext(lifted[i], lifted[i + 1]) {
      StepRefines(run[i], run[i + 1]);
    }
  }

  function LiftRun(run: seq<BitState>): (lifted: seq<LockState>)
    ensures |lifted| == |run| && forall i :: 0 <= i < |run| ==> lifted[i] == Lift(run[i])
  {
    seq(|run|, i requires 0 <= i < |run| => Lift(run[i]))
  }

  /** The same moves, read through Lift, are moves of the lock machine. */
  lemma TraceRefines(run: seq<BitState>, trace: seq<Move<Event>>)
    requires IsTrace(run, trace, BitInit, BitMoves)
    ensures IsTrace(LiftRun(run), trace, LockInit, LockMoves)
  {
    forall s | BitInit(s) ensures BitInv(s) && LockInit(Lift(s)) { InitRefines(s); }
    forall s, m, s' | BitInv(s) && BitMoves(s, m, s') ensures BitInv(s') { MoveRefines(s, m, s'); }
    forall k | 0 <= k < |trace| ensures LockMoves(LiftRun(run)[k], trace[k], LiftRun(run)[k + 1]) {
      TraceInvariant(run, trace, BitInit, BitMoves, BitInv, k);
      MoveRefines(run[k], trace[k], run[k + 1]);
    }
  }
}
