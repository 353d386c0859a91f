/**
 Atomic object references over words read as (object, exclusive, shared): mutual exclusion,
 conservation of references, no revival and exactly-once deletion, in every run.
 */
module AtomicRefLock {
  import opened SlotWord
  import opened AtomicRef
  import opened Tally
  import opened Runs

  type LockState = State<Lock>
  type LockPc = Pc<Lock>

  function LockStep(pc: LockPc, w: Lock): Local<Lock> {
    match pc
    case SharedRead(i) =>
      if w.exclusive || w.shared >= 7 then Local(pc, w) else Local(SharedCas(i, w), w)
    case SharedCas(i, seen) =>
      if w == seen then Local(SharedHeld(i), w.(shared := w.shared + 1)) else Local(SharedRead(i), w)
    case SharedHeld(i) =>
      if w.obj != NULL then Local(SharedReference(i, w.obj), w) else Local(SharedRelease(i, NULL), w)
    case SharedRelease(i, obj) =>
      Local(Returned(obj), if w.shared == 0 then w else w.(shared := w.shared - 1))
    case ExclusiveRead(i, obj, assign) =>
      if w.exclusive then Local(pc, w) else Local(ExclusiveCas(i, w, obj, assign), w)
    case ExclusiveCas(i, seen, obj, assign) =>
      if w == seen then Local(ExclusiveDrain(i, seen, obj, assign), w.(exclusive := true))
      else Local(ExclusiveRead(i, obj, assign), w)
    case ExclusiveDrain(i, seen, obj, assign) =>
      if seen.shared != 0 then Local(ExclusiveDrain(i, w, obj, assign), w)
      else Local(ExclusiveHeld(i, obj, assign), w)
    case ExclusiveHeld(i, obj, assign) => Local(ExclusiveStore(i, obj, w.obj, assign), w)
    case ExclusiveStore(i, obj, previous, assign) =>
      Local(ExclusiveRelease(i, previous, assign), Lock(obj, true, 0))
    case ExclusiveRelease(i, previous, assign) =>
      Local(AfterStore(previous, assign), w.(exclusive := false))
    case _ => Local(pc, w)
  }

  ghost predicate LockNext(s: LockState, s': LockState) {
    Next(LockStep, s, s')
  }

  /** One step with who takes it and what it is. */
  ghost predicate LockMoves(s: LockState, m: Move<Event>, s': LockState) {
    StepBy(LockStep, s, s', m.t, m.e)
  }

  ghost predicate LockInit(s: LockState) {
    Init(Lock(NULL, false, 0), s)
  }

  // ---- weights: who is where, who owns what ----

  function ReaderOf(slot: nat, th: Thread<Lock>): nat {
    if (th.pc.SharedHeld? || th.pc.SharedReference? || th.pc.SharedRelease?) && th.pc.slot == slot then 1 else 0
  }

  function WriterOf(slot: nat, th: Thread<Lock>): nat {
    if (th.pc.ExclusiveDrain? || th.pc.ExclusiveHeld? || th.pc.ExclusiveStore? || th.pc.ExclusiveRelease?)
       && th.pc.slot == slot then 1 else 0
  }

  /** The reference a thread carries through a call; an uncounted SharedReference carries none. */
  function Carried(pc: LockPc): Ptr {
    match pc
    case SharedRelease(_, obj) => obj
    case ExclusiveRead(_, obj, _) => obj
    case ExclusiveCas(_, _, obj, _) => obj
    case ExclusiveDrain(_, _, obj, _) => obj
    case ExclusiveHeld(_, obj, _) => obj
    case ExclusiveStore(_, obj, _, _) => obj
    case ExclusiveRelease(_, previous, _) => previous
    case Returned(obj) => obj
    case Dereferencing(obj) => obj
    case _ => NULL
  }

  function Owns(p: Ptr, th: Thread<Lock>): nat {
    th.held[p] + (if p != NULL && Carried(th.pc) == p then 1 else 0)
  }

  function DeleterOf(p: Ptr, th: Thread<Lock>): nat {
    if th.pc == Deleting(p) then 1 else 0
  }

  function Names(p: Ptr, w: Lock): nat {
    if w.obj == p then 1 else 0
  }

  function CountOf(s: LockState, p: Ptr): int {
    if p in s.objects then s.objects[p] else 0
  }

  // ---- invariant ----

  /** The word's fields are exactly the live readers and the one writer. */
  ghost predicate SlotOk(s: LockState, i: nat)
    requires i < |s.words|
  {
    && s.words[i].shared == Total(s.threads, ReaderOf, i) <= 7
    && Total(s.threads, WriterOf, i) == (if s.words[i].exclusive then 1 else 0)
    && Aligned(s.words[i].obj)
  }

  /** What a thread may rely on at its program counter, given its slot's word. */
  ghost predicate PcFits(pc: LockPc, w: Lock) {
    && (pc.SharedCas? ==> !pc.seen.exclusive && pc.seen.shared < 7)
    && (pc.SharedReference? ==> pc.obj == w.obj && pc.obj != NULL)
    && (pc.ExclusiveCas? ==> !pc.seen.exclusive)
    && (pc.ExclusiveDrain? && pc.seen.shared == 0 ==> w.shared == 0)
    && (pc.ExclusiveHeld? || pc.ExclusiveStore? || pc.ExclusiveRelease? ==> w.shared == 0)
    && (pc.ExclusiveStore? ==> pc.previous == w.obj)
    && (pc.Dereferencing? || pc.Deleting? ==> pc.obj != NULL)
    && Aligned(Carried(pc))
  }

  ghost predicate PcOk(s: LockState, pc: LockPc) {
    if pc.OnSlot() || pc.SharedReference? then pc.slot < |s.words| && PcFits(pc, s.words[pc.slot])
    else PcFits(pc, Lock(NULL, false, 0))
  }

  /** PointerCount is the slots naming the object plus the references threads own; at zero one deleter exists. */
  ghost predicate RefsOk(s: LockState, p: Ptr) {
    && CountOf(s, p) == Total(s.words, Names, p) + Total(s.threads, Owns, p)
    && Total(s.threads, DeleterOf, p) == (if p in s.objects && s.objects[p] == 0 then 1 else 0)
    && s.created[p] == s.deleted[p] + (if p in s.objects then 1 else 0)
    && (p in s.objects ==> Aligned(p))
  }

  ghost predicate Inv(s: LockState) {
    && (forall i: nat :: i < |s.words| ==> SlotOk(s, i))
    && (forall t: nat :: t < |s.threads| ==> PcOk(s, s.threads[t].pc) && s.threads[t].held[NULL] == 0)
    && (forall p :: p != NULL ==> RefsOk(s, p))
    && NULL !in s.objects
    && s.total == |s.objects|
  }

  // ---- consequences ----

  /** What any thread owns is allocated, with a positive count. */
  lemma OwnedIsLive(s: LockState, t: nat, p: Ptr)
    requires Inv(s) && t < |s.threads| && p != NULL
    requires Owns(p, s.threads[t]) > 0
    ensures p in s.objects && s.objects[p] > 0
  {
    TotalAtLeast(s.threads, t, Owns, p);
    assert RefsOk(s, p);
  }

  lemma StoredIsLive(s: LockState, i: nat)
    requires Inv(s) && i < |s.words| && s.words[i].obj != NULL
    ensures s.words[i].obj in s.objects && s.objects[s.words[i].obj] > 0
  {
    var p := s.words[i].obj;
    TotalAtLeast(s.words, i, Names, p);
    assert RefsOk(s, p);
  }

  // ---- preservation ----

  /** The word's fields agree with the number of readers and writers. */
  predicate Agrees(w: Lock, readers: int, writers: int) {
    w.shared == readers <= 7 && writers == (if w.exclusive then 1 else 0) && Aligned(w.obj)
  }

  /** One step on a word keeps the word's fields in agreement with the change of the thread's own weights. */
  ghost predicate StepAgrees(th: Thread<Lock>, w: Lock, readers: int, writers: int)
    requires th.pc.OnSlot()
  {
    var local := LockStep(th.pc, w);
    var th' := th.(pc := local.pc);
    Agrees(local.word, readers - ReaderOf(th.pc.slot, th) + ReaderOf(th.pc.slot, th'),
           writers - WriterOf(th.pc.slot, th) + WriterOf(th.pc.slot, th'))
  }

  lemma SharedAgrees(th: Thread<Lock>, w: Lock, readers: nat, writers: nat)
    requires th.pc.SharedRead? || th.pc.SharedCas? || th.pc.SharedHeld? || th.pc.SharedRelease?
    requires Agrees(w, readers, writers) && ReaderOf(th.pc.slot, th) <= readers
    requires th.pc.SharedCas? ==> !th.pc.seen.exclusive && th.pc.seen.shared < 7
    ensures StepAgrees(th, w, readers, writers)
  {
  }

  lemma ExclusiveAgrees(th: Thread<Lock>, w: Lock, readers: nat, writers: nat)
    requires th.pc.OnSlot() && !th.pc.SharedRead? && !th.pc.SharedCas? && !th.pc.SharedHeld? && !th.pc.SharedRelease?
    requires Agrees(w, readers, writers) && WriterOf(th.pc.slot, th) <= writers
    requires th.pc.ExclusiveCas? ==> !th.pc.seen.exclusive
    requires th.pc.ExclusiveStore? ==> w.shared == 0 && Aligned(th.pc.obj)
    ensures StepAgrees(th, w, readers, writers)
  {
  }

  /** The state after thread `t` steps on its slot. */
  function SlotPost(s: LockState, t: nat): LockState
    requires t < |s.threads| && s.threads[t].pc.OnSlot() && s.threads[t].pc.slot < |s.words|
  {
    var th := s.threads[t];
    var local := LockStep(th.pc, s.words[th.pc.slot]);
    SetThread(s, t, th.(pc := local.pc)).(words := s.words[th.pc.slot := local.word])
  }

  lemma OwnSlotPreserved(s: LockState, t: nat)
    requires t < |s.threads| && s.threads[t].pc.OnSlot() && PcOk(s, s.threads[t].pc)
    requires SlotOk(s, s.threads[t].pc.slot)
    ensures SlotOk(SlotPost(s, t), s.threads[t].pc.slot)
  {
    var th := s.threads[t];
    var k := th.pc.slot;
    TotalAtLeast(s.threads, t, ReaderOf, k);
    TotalAtLeast(s.threads, t, WriterOf, k);
    if th.pc.SharedRead? || th.pc.SharedCas? || th.pc.SharedHeld? || th.pc.SharedRelease? {
      SharedAgrees(th, s.words[k], Total(s.threads, ReaderOf, k), Total(s.threads, WriterOf, k));
    } else {
      ExclusiveAgrees(th, s.words[k], Total(s.threads, ReaderOf, k), Total(s.threads, WriterOf, k));
    }
    TotalUpdate(s.threads, t, SlotPost(s, t).threads[t], ReaderOf, k);
    TotalUpdate(s.threads, t, SlotPost(s, t).threads[t], WriterOf, k);
  }

  lemma OtherSlotPreserved(s: LockState, t: nat, i: nat)
    requires t < |s.threads| && s.threads[t].pc.OnSlot() && PcOk(s, s.threads[t].pc)
    requires i < |s.words| && i != s.threads[t].pc.slot && SlotOk(s, i) && SlotOk(s, s.threads[t].pc.slot)
    ensures SlotOk(SlotPost(s, t), i)
  {
    var th := s.threads[t];
    var th' := SlotPost(s, t).threads[t];
    assert ReaderOf(i, th) == ReaderOf(i, th') == 0 && WriterOf(i, th) == WriterOf(i, th') == 0;
    TotalUpdate(s.threads, t, th', ReaderOf, i);
    TotalUpdate(s.threads, t, th', WriterOf, i);
  }

  lemma WordFits(pc: LockPc, w: Lock)
    requires pc.OnSlot() && PcFits(pc, w) && Aligned(w.obj) && w.shared <= 7
    ensures PcFits(LockStep(pc, w).pc, LockStep(pc, w).word)
    ensures LockStep(pc, w).pc.OnSlot() || LockStep(pc, w).pc.SharedReference? ==> LockStep(pc, w).pc.slot == pc.slot
  {
  }

  lemma OwnPcPreserved(s: LockState, t: nat)
    requires t < |s.threads| && s.threads[t].pc.OnSlot() && PcOk(s, s.threads[t].pc)
    requires SlotOk(s, s.threads[t].pc.slot)
    ensures PcOk(SlotPost(s, t), SlotPost(s, t).threads[t].pc)
  {
    WordFits(s.threads[t].pc, s.words[s.threads[t].pc.slot]);
  }

  /** No other thread's expectation is disturbed: readers exclude a store, a writer excludes readers and writers. */
  lemma OtherPcPreserved(s: LockState, t: nat, u: nat)
    requires t < |s.threads| && s.threads[t].pc.OnSlot() && PcOk(s, s.threads[t].pc)
    requires SlotOk(s, s.threads[t].pc.slot)
    requires u < |s.threads| && u != t && PcOk(s, s.threads[u].pc)
    ensures PcOk(SlotPost(s, t), s.threads[u].pc)
  {
    var k := s.threads[t].pc.slot;
    TotalAtLeast(s.threads, u, ReaderOf, k);
    TotalAtLeast(s.threads, t, ReaderOf, k);
    if u < t {
      TotalAtLeastTwo(s.threads, u, t, WriterOf, k);
    } else {
      TotalAtLeastTwo(s.threads, t, u, WriterOf, k);
    }
  }

  /** A slot step only moves references between the slot and the thread. */
  lemma ReferencesMove(th: Thread<Lock>, w: Lock, p: Ptr)
    requires th.pc.OnSlot() && p != NULL
    requires th.pc.ExclusiveStore? ==> th.pc.previous == w.obj
    ensures
      var local := LockStep(th.pc, w);
      var th' := th.(pc := local.pc);
      && Names(p, w) + Owns(p, th) == Names(p, local.word) + Owns(p, th')
      && DeleterOf(p, th) == DeleterOf(p, th') == 0
  {
  }

  lemma SlotRefsPreserved(s: LockState, t: nat, p: Ptr)
    requires t < |s.threads| && s.threads[t].pc.OnSlot() && PcOk(s, s.threads[t].pc)
    requires p != NULL && RefsOk(s, p)
    ensures RefsOk(SlotPost(s, t), p)
  {
    var th := s.threads[t];
    var k := th.pc.slot;
    ReferencesMove(th, s.words[k], p);
    TotalUpdate(s.words, k, SlotPost(s, t).words[k], Names, p);
    TotalUpdate(s.threads, t, SlotPost(s, t).threads[t], Owns, p);
    TotalUpdate(s.threads, t, SlotPost(s, t).threads[t], DeleterOf, p);
  }

  lemma SlotStepKeepsInv(s: LockState, t: nat)
    requires Inv(s) && t < |s.threads| && s.threads[t].pc.OnSlot()
    ensures s.threads[t].pc.slot < |s.words| && Inv(SlotPost(s, t))
  {
    assert PcOk(s, s.threads[t].pc);
    assert SlotOk(s, s.threads[t].pc.slot);
    var s' := SlotPost(s, t);
    OwnSlotPreserved(s, t);
    forall i: nat | i < |s'.words| ensures SlotOk(s', i) {
      if i != s.threads[t].pc.slot {
        OtherSlotPreserved(s, t, i);
      }
    }
    OwnPcPreserved(s, t);
    forall u: nat | u < |s'.threads| ensures PcOk(s', s'.threads[u].pc) && s'.threads[u].held[NULL] == 0 {
      if u != t {
        OtherPcPreserved(s, t, u);
      }
    }
    forall p | p != NULL ensures RefsOk(s', p) {
      SlotRefsPreserved(s, t, p);
    }
  }

  // ---- steps off the slot: one thread and the counts change ----

  /** The frame of a step that leaves every word and every other thread alone. */
  lemma OffSlotKeepsSlots(s: LockState, s': LockState, t: nat)
    requires Inv(s) && t < |s.threads| && |s'.threads| == |s.threads|
    requires s'.words == s.words && s'.threads == s.threads[t := s'.threads[t]]
    requires forall i :: ReaderOf(i, s'.threads[t]) == ReaderOf(i, s.threads[t])
    requires forall i :: WriterOf(i, s'.threads[t]) == WriterOf(i, s.threads[t])
    requires PcOk(s', s'.threads[t].pc) && s'.threads[t].held[NULL] == 0
    ensures forall i: nat :: i < |s'.words| ==> SlotOk(s', i)
    ensures forall u: nat :: u < |s'.threads| ==> PcOk(s', s'.threads[u].pc) && s'.threads[u].held[NULL] == 0
  {
    forall i: nat | i < |s'.words| ensures SlotOk(s', i) {
      assert SlotOk(s, i);
      TotalUpdate(s.threads, t, s'.threads[t], ReaderOf, i);
      TotalUpdate(s.threads, t, s'.threads[t], WriterOf, i);
    }
    forall u: nat | u < |s'.threads| ensures PcOk(s', s'.threads[u].pc) && s'.threads[u].held[NULL] == 0 {
      if u != t {
        assert s'.threads[u] == s.threads[u] && PcOk(s, s.threads[u].pc);
      }
    }
  }

  /** Counts stay right when the object's count and the thread's own references change together. */
  lemma RefsFollow(s: LockState, s': LockState, t: nat, p: Ptr)
    requires t < |s.threads| && |s'.threads| == |s.threads| && s'.words == s.words
    requires s'.threads == s.threads[t := s'.threads[t]]
    requires p != NULL && RefsOk(s, p)
    requires CountOf(s', p) - CountOf(s, p) == Owns(p, s'.threads[t]) - Owns(p, s.threads[t])
    requires DeleterOf(p, s'.threads[t]) - DeleterOf(p, s.threads[t])
          == (if p in s'.objects && s'.objects[p] == 0 then 1 else 0) - (if p in s.objects && s.objects[p] == 0 then 1 else 0)
    requires s'.created[p] == s'.deleted[p] + (if p in s'.objects then 1 else 0)
    requires p in s'.objects ==> Aligned(p)
    ensures RefsOk(s', p)
  {
    TotalUpdate(s.threads, t, s'.threads[t], Owns, p);
    TotalUpdate(s.threads, t, s'.threads[t], DeleterOf, p);
  }

  lemma CallEffect(s: LockState, s': LockState, t: nat, e: Event)
    requires StepBy(LockStep, s, s', t, e) && !e.Advance?
    ensures s.threads[t].pc.Idle?
    ensures !e.Create? && !e.CallReference? && (e.obj != NULL || e.Drop?) ==> e.obj in s.threads[t].held
    ensures e.CallReference? || e.CallAssign? || e.CallMove? ==> e.slot < |s.words|
    ensures e.Create? || e.AddReference? || e.Drop? ==> e.obj != NULL
    ensures s'.words == s.words && |s'.threads| == |s.threads| && s'.threads == s.threads[t := Called(s.threads[t], e)]
  {
    hide LockStep, One, Called, AdvancePost;
  }

  /** A thread that makes a call may rely on what its program counter says, whatever its slot's word. */
  lemma CalledFits(th: Thread<Lock>, e: Event, w: Lock)
    requires th.pc.Idle? && !e.Advance?
    requires e.Drop? ==> e.obj != NULL
    requires !e.Create? && !e.CallReference? && e.obj != NULL ==> Aligned(e.obj)
    ensures PcFits(Called(th, e).pc, w)
  {
    hide One;
  }

  lemma CalledSlot(th: Thread<Lock>, e: Event)
    requires th.pc.Idle? && !e.Advance?
    ensures
      var pc := Called(th, e).pc;
      pc.OnSlot() || pc.SharedReference? ==> (e.CallReference? || e.CallAssign? || e.CallMove?) && pc.slot == e.slot
  {
    hide One;
  }

  lemma CalledHolds(th: Thread<Lock>, e: Event)
    requires !e.Advance? && th.held[NULL] == 0
    requires e.Create? || e.AddReference? || e.Drop? ==> e.obj != NULL
    ensures Called(th, e).held[NULL] == 0
  {
  }

  lemma CalledIsOutside(th: Thread<Lock>, e: Event, i: nat)
    requires th.pc.Idle? && !e.Advance?
    ensures ReaderOf(i, Called(th, e)) == ReaderOf(i, th) == 0
    ensures WriterOf(i, Called(th, e)) == WriterOf(i, th) == 0
  {
    hide One;
  }

  lemma CallRefs(s: LockState, s': LockState, t: nat, e: Event, p: Ptr)
    requires StepBy(LockStep, s, s', t, e) && (e.CallReference? || e.CallAssign? || e.CallMove?)
    requires p != NULL && RefsOk(s, p) && s.threads[t].held[NULL] == 0
    requires !e.CallReference? && e.obj == p ==> p in s.objects && s.objects[p] > 0
    ensures RefsOk(s', p)
  {
    assert s' == CallPost(s, t, e);
    hide LockStep, Post, AdvancePost;
    RefsFollow(s, s', t, p);
  }

  lemma OwnerRefs(s: LockState, s': LockState, t: nat, e: Event, p: Ptr)
    requires StepBy(LockStep, s, s', t, e) && (e.Create? || e.AddReference? || e.Drop?)
    requires p != NULL && RefsOk(s, p)
    requires !e.Create? && e.obj == p ==> p in s.objects && s.objects[p] > 0
    ensures RefsOk(s', p)
  {
    assert s' == CallPost(s, t, e);
    hide LockStep, Post, AdvancePost;
    RefsFollow(s, s', t, p);
  }

  lemma CallKeepsPc(s: LockState, s': LockState, t: nat, e: Event)
    requires StepBy(LockStep, s, s', t, e) && !e.Advance? && s.threads[t].held[NULL] == 0
    requires (e.CallAssign? || e.CallMove? || e.AddReference? || e.Drop?) && e.obj != NULL ==> Aligned(e.obj)
    ensures PcOk(s', s'.threads[t].pc) && s'.threads[t].held[NULL] == 0
  {
    CallEffect(s, s', t, e);
    hide LockStep, Post, Enabled, Called, PcFits, Pc.OnSlot;
    var pc := s'.threads[t].pc;
    CalledSlot(s.threads[t], e);
    CalledHolds(s.threads[t], e);
    CalledFits(s.threads[t], e, if pc.OnSlot() || pc.SharedReference? then s'.words[e.slot] else Lock(NULL, false, 0));
  }

  lemma CallKeepsTotal(s: LockState, s': LockState, t: nat, e: Event)
    requires StepBy(LockStep, s, s', t, e) && !e.Advance?
    requires NULL !in s.objects && s.total == |s.objects|
    requires !e.Create? && !e.CallReference? && e.obj != NULL ==> e.obj in s.objects
    ensures NULL !in s'.objects && s'.total == |s'.objects|
  {
    assert s' == CallPost(s, t, e);
    hide LockStep, Post, AdvancePost;
    if !e.Create? {
      assert s'.objects.Keys == s.objects.Keys;
      assert |s.objects| == |s.objects.Keys| && |s'.objects| == |s'.objects.Keys|;
    }
  }

  lemma CallKeepsRefs(s: LockState, s': LockState, t: nat, e: Event, p: Ptr)
    requires Inv(s) && StepBy(LockStep, s, s', t, e) && !e.Advance? && p != NULL
    ensures RefsOk(s', p)
  {
    hide LockStep, SlotOk, PcOk;
    assert RefsOk(s, p);
    if e.CallReference? || e.CallAssign? || e.CallMove? {
      if !e.CallReference? && e.obj == p {
        OwnedIsLive(s, t, p);
      }
      CallRefs(s, s', t, e, p);
    } else {
      if !e.Create? && e.obj == p {
        OwnedIsLive(s, t, p);
      }
      OwnerRefs(s, s', t, e, p);
    }
  }

  /** A call touches no word and one thread, which is neither reading nor writing; what it names it owns. */
  lemma CallFrame(s: LockState, s': LockState, t: nat, e: Event)
    requires StepBy(LockStep, s, s', t, e) && !e.Advance?
    ensures |s'.threads| == |s.threads| && s'.words == s.words && s'.threads == s.threads[t := s'.threads[t]]
    ensures forall i :: ReaderOf(i, s'.threads[t]) == ReaderOf(i, s.threads[t])
    ensures forall i :: WriterOf(i, s'.threads[t]) == WriterOf(i, s.threads[t])
    ensures !e.Create? && !e.CallReference? && e.obj != NULL ==> Owns(e.obj, s.threads[t]) > 0
  {
    CallEffect(s, s', t, e);
    hide LockStep, Post, Enabled, Called, ReaderOf, WriterOf;
    forall i ensures ReaderOf(i, s'.threads[t]) == ReaderOf(i, s.threads[t]) && WriterOf(i, s'.threads[t]) == WriterOf(i, s.threads[t]) {
      CalledIsOutside(s.threads[t], e, i);
    }
  }

  lemma CallKeepsInv(s: LockState, s': LockState, t: nat, e: Event)
    requires Inv(s) && StepBy(LockStep, s, s', t, e) && !e.Advance?
    ensures Inv(s')
  {
    hide SlotOk, PcOk, RefsOk, Post, Enabled, ReaderOf, WriterOf, Owns;
    CallFrame(s, s', t, e);
    if !e.Create? && !e.CallReference? && e.obj != NULL {
      OwnedIsLive(s, t, e.obj);
      LiveIsAligned(s, e.obj);
    }
    CallKeepsPc(s, s', t, e);
    CallKeepsTotal(s, s', t, e);
    OffSlotKeepsSlots(s, s', t);
    forall p | p != NULL ensures RefsOk(s', p) {
      CallKeepsRefs(s, s', t, e, p);
    }
  }

  lemma LiveIsAligned(s: LockState, p: Ptr)
    requires Inv(s) && p in s.objects
    ensures Aligned(p)
  {
    assert RefsOk(s, p);
  }

  /** The count of one object before and after, with the thread's own references and its being the deleter. */
  ghost predicate MovesTogether(s: LockState, s': LockState, t: nat, p: Ptr)
    requires t < |s.threads| == |s'.threads|
  {
    && CountOf(s', p) - CountOf(s, p) == Owns(p, s'.threads[t]) - Owns(p, s.threads[t])
    && DeleterOf(p, s'.threads[t]) - DeleterOf(p, s.threads[t])
       == (if p in s'.objects && s'.objects[p] == 0 then 1 else 0) - (if p in s.objects && s.objects[p] == 0 then 1 else 0)
    && s'.created[p] == s.created[p]
    && s'.deleted[p] + (if p in s'.objects then 1 else 0) == s.deleted[p] + (if p in s.objects then 1 else 0)
    && (p in s'.objects ==> p in s.objects)
  }

  lemma CountingMoves(s: LockState, s': LockState, t: nat, p: Ptr)
    requires StepBy(LockStep, s, s', t, Advance) && p != NULL
    requires s.threads[t].pc.SharedReference? || s.threads[t].pc.Dereferencing?
    requires s.threads[t].pc.obj != NULL && s.objects[s.threads[t].pc.obj] > 0
    ensures |s.threads| == |s'.threads| && MovesTogether(s, s', t, p)
  {
    hide LockStep, CallPost;
  }

  lemma ReturningMoves(s: LockState, s': LockState, t: nat, p: Ptr)
    requires StepBy(LockStep, s, s', t, Advance) && p != NULL
    requires s.threads[t].pc.Returned? || (s.threads[t].pc.Deleting? && s.objects[s.threads[t].pc.obj] == 0)
    ensures |s.threads| == |s'.threads| && MovesTogether(s, s', t, p)
  {
    hide LockStep, CallPost;
  }

  /** A step off the slot moves the object's count with the thread's reference; the last one makes the thread its deleter. */
  lemma AdvanceMoves(s: LockState, s': LockState, t: nat, p: Ptr)
    requires StepBy(LockStep, s, s', t, Advance) && !s.threads[t].pc.OnSlot() && p != NULL
    requires
      var pc := s.threads[t].pc;
      && (pc.SharedReference? || pc.Dereferencing? ==> pc.obj != NULL && s.objects[pc.obj] > 0)
      && (pc.Deleting? ==> s.objects[pc.obj] == 0)
    ensures |s.threads| == |s'.threads| && MovesTogether(s, s', t, p)
  {
    hide LockStep, Post, MovesTogether;
    if s.threads[t].pc.SharedReference? || s.threads[t].pc.Dereferencing? {
      CountingMoves(s, s', t, p);
    } else {
      ReturningMoves(s, s', t, p);
    }
  }

  lemma AdvanceRefs(s: LockState, s': LockState, t: nat, p: Ptr)
    requires Inv(s) && StepBy(LockStep, s, s', t, Advance) && !s.threads[t].pc.OnSlot() && p != NULL
    requires s.threads[t].pc.SharedReference? ==> s.objects[s.threads[t].pc.obj] > 0
    ensures RefsOk(s', p)
  {
    var pc := s.threads[t].pc;
    if pc.Dereferencing? || pc.Deleting? {
      assert PcOk(s, pc) && RefsOk(s, pc.obj);
      TotalAtLeast(s.threads, t, Owns, pc.obj);
      TotalAtLeast(s.threads, t, DeleterOf, pc.obj);
    }
    assert pc.SharedReference? ==> PcOk(s, pc);
    AdvanceMoves(s, s', t, p);
    AdvanceFrame(s, s', t);
    assert RefsOk(s, p);
    hide Post, LockStep, Enabled, Owns, DeleterOf, SlotOk, PcOk;
    RefsFollow(s, s', t, p);
  }

  lemma AdvanceFrame(s: LockState, s': LockState, t: nat)
    requires StepBy(LockStep, s, s', t, Advance) && !s.threads[t].pc.OnSlot()
    ensures |s'.threads| == |s.threads| && s'.words == s.words && s'.threads == s.threads[t := s'.threads[t]]
    ensures forall i :: ReaderOf(i, s'.threads[t]) == ReaderOf(i, s.threads[t])
    ensures forall i :: WriterOf(i, s'.threads[t]) == WriterOf(i, s.threads[t])
  {
    hide LockStep, CallPost;
  }

  lemma AdvanceKeepsPc(s: LockState, s': LockState, t: nat)
    requires StepBy(LockStep, s, s', t, Advance) && !s.threads[t].pc.OnSlot()
    requires PcOk(s, s.threads[t].pc) && s.threads[t].held[NULL] == 0
    requires s.threads[t].pc.SharedReference? ==> SlotOk(s, s.threads[t].pc.slot)
    ensures PcOk(s', s'.threads[t].pc) && s'.threads[t].held[NULL] == 0
  {
    hide LockStep, CallPost;
  }

  lemma AdvanceKeepsTotal(s: LockState, s': LockState, t: nat)
    requires StepBy(LockStep, s, s', t, Advance) && !s.threads[t].pc.OnSlot()
    requires NULL !in s.objects && s.total == |s.objects|
    ensures NULL !in s'.objects && s'.total == |s'.objects|
  {
    hide LockStep, CallPost;
  }

  lemma AdvanceOffSlotKeepsInv(s: LockState, s': LockState, t: nat)
    requires Inv(s) && StepBy(LockStep, s, s', t, Advance) && !s.threads[t].pc.OnSlot()
    ensures Inv(s')
  {
    var pc := s.threads[t].pc;
    assert PcOk(s, pc) && s.threads[t].held[NULL] == 0;
    if pc.SharedReference? {
      StoredIsLive(s, pc.slot);
      assert SlotOk(s, pc.slot);
    }
    hide SlotOk, PcOk, RefsOk, Post, Enabled, ReaderOf, WriterOf;
    AdvanceFrame(s, s', t);
    AdvanceKeepsPc(s, s', t);
    AdvanceKeepsTotal(s, s', t);
    OffSlotKeepsSlots(s, s', t);
    forall p | p != NULL ensures RefsOk(s', p) {
      AdvanceRefs(s, s', t, p);
    }
  }

  lemma MoveKeepsInv(s: LockState, m: Move<Event>, s': LockState)
    requires Inv(s) && LockMoves(s, m, s')
    ensures Inv(s')
  {
    var t, e := m.t, m.e;
    if !e.Advance? {
      CallKeepsInv(s, s', t, e);
    } else if s.threads[t].pc.OnSlot() {
      SlotStepKeepsInv(s, t);
      assert s' == SlotPost(s, t);
    } else {
      AdvanceOffSlotKeepsInv(s, s', t);
    }
  }

  lemma StepKeepsInv(s: LockState, s': LockState)
    requires Inv(s) && LockNext(s, s')
    ensures Inv(s')
  {
    var t: nat, e: Event :| StepBy(LockStep, s, s', t, e);
    MoveKeepsInv(s, Move(t, e), s');
  }

  lemma InitHolds(s: LockState)
    requires LockInit(s)
    ensures Inv(s)
  {
    forall i: nat | i < |s.words| ensures SlotOk(s, i) {
      TotalZero(s.threads, ReaderOf, i);
      TotalZero(s.threads, WriterOf, i);
      assert s.words[i] in s.words;
    }
    forall p | p != NULL ensures RefsOk(s, p) {
      TotalZero(s.threads, Owns, p);
      TotalZero(s.threads, DeleterOf, p);
      TotalZero(s.words, Names, p);
    }
    forall t: nat | t < |s.threads| ensures PcOk(s, s.threads[t].pc) && s.threads[t].held[NULL] == 0 {
      assert s.threads[t] in s.threads;
    }
  }

  // ---- what every run guarantees ----

  /** Readers and writers of one slot: at most one writer, none reading once it is past its drain. */
  ghost predicate Exclusion(s: LockState) {
    && (forall i: nat :: i < |s.words| ==> Total(s.threads, WriterOf, i) <= 1 && Total(s.threads, ReaderOf, i) <= 7)
    && (forall t: nat :: t < |s.threads| && PastDrain(s.threads[t].pc) && s.threads[t].pc.slot < |s.words| ==>
        Total(s.threads, ReaderOf, s.threads[t].pc.slot) == 0 && s.words[s.threads[t].pc.slot].exclusive)
  }

  predicate PastDrain(pc: LockPc) {
    pc.ExclusiveHeld? || pc.ExclusiveStore? || pc.ExclusiveRelease?
  }

  /** Every PointerCount is the number of slots and thread-owned references naming the object. */
  ghost predicate Conserved(s: LockState) {
    && s.total == |s.objects|
    && forall p :: p in s.objects ==>
        && s.objects[p] == Total(s.words, Names, p) + Total(s.threads, Owns, p)
        && s.created[p] == s.deleted[p] + 1
        && (Total(s.threads, DeleterOf, p) == if s.objects[p] == 0 then 1 else 0)
  }

  /** A freed object is named by nothing and owned by no one, and was deleted as often as it was created. */
  ghost predicate FreedIsGone(s: LockState) {
    forall p :: p != NULL && p !in s.objects ==>
      && Total(s.words, Names, p) == 0 && Total(s.threads, Owns, p) == 0
      && Total(s.threads, DeleterOf, p) == 0 && s.created[p] == s.deleted[p]
  }

  /**
   The driver's own assertions, as facts about the step a thread is about to take: releasing shared
   leaves a count below the maximum, releasing exclusive finds the bit set, a reference is added to
   a positive count, and a count that is not positive after a dereference is exactly zero.
   */
  ghost predicate AssertsHold(s: LockState, t: nat)
    requires t < |s.threads|
  {
    var pc := s.threads[t].pc;
    && (pc.SharedRelease? ==> pc.slot < |s.words| && 0 < s.words[pc.slot].shared <= 7)
    && (pc.ExclusiveRelease? ==> pc.slot < |s.words| && s.words[pc.slot].exclusive)
    && (pc.SharedReference? ==> pc.obj in s.objects && s.objects[pc.obj] + 1 > 1)
    && (pc.Dereferencing? ==> pc.obj in s.objects && s.objects[pc.obj] - 1 >= 0)
    && (pc.Deleting? ==> pc.obj in s.objects && s.objects[pc.obj] == 0)
  }

  lemma InvAsserts(s: LockState, t: nat)
    requires Inv(s) && t < |s.threads|
    ensures AssertsHold(s, t)
    ensures !s.threads[t].pc.Idle? ==> Enabled(s, t, Advance)
  {
    var pc := s.threads[t].pc;
    assert PcOk(s, pc);
    if pc.OnSlot() {
      assert SlotOk(s, pc.slot);
      TotalAtLeast(s.threads, t, ReaderOf, pc.slot);
      TotalAtLeast(s.threads, t, WriterOf, pc.slot);
    } else if pc.SharedReference? {
      StoredIsLive(s, pc.slot);
    } else if pc.Dereferencing? {
      OwnedIsLive(s, t, pc.obj);
    } else if pc.Deleting? {
      TotalAtLeast(s.threads, t, DeleterOf, pc.obj);
      assert RefsOk(s, pc.obj);
    }
  }

  lemma InvExclusion(s: LockState)
    requires Inv(s)
    ensures Exclusion(s)
  {
    forall i: nat | i < |s.words| ensures Total(s.threads, WriterOf, i) <= 1 && Total(s.threads, ReaderOf, i) <= 7 {
      assert SlotOk(s, i);
    }
    forall t: nat | t < |s.threads| && PastDrain(s.threads[t].pc) && s.threads[t].pc.slot < |s.words|
      ensures Total(s.threads, ReaderOf, s.threads[t].pc.slot) == 0 && s.words[s.threads[t].pc.slot].exclusive
    {
      assert PcOk(s, s.threads[t].pc) && SlotOk(s, s.threads[t].pc.slot);
      TotalAtLeast(s.threads, t, WriterOf, s.threads[t].pc.slot);
    }
  }

  lemma InvConserves(s: LockState)
    requires Inv(s)
    ensures Conserved(s) && FreedIsGone(s)
  {
    forall p | p in s.objects
      ensures
        && s.objects[p] == Total(s.words, Names, p) + Total(s.threads, Owns, p)
        && s.created[p] == s.deleted[p] + 1
        && Total(s.threads, DeleterOf, p) == if s.objects[p] == 0 then 1 else 0
    {
      assert RefsOk(s, p);
    }
    forall p | p != NULL && p !in s.objects
      ensures Total(s.words, Names, p) == 0 && Total(s.threads, Owns, p) == 0
      ensures Total(s.threads, DeleterOf, p) == 0 && s.created[p] == s.deleted[p]
    {
      assert RefsOk(s, p);
    }
  }

  /** Safety of every interleaving: exclusion, conservation, exactly-once deletion, no use after free, no stuck call. */
  lemma SafeInEveryRun(run: seq<LockState>, i: nat)
    requires IsRun(run, LockInit, LockNext) && i < |run|
    ensures Inv(run[i])
    ensures Exclusion(run[i]) && Conserved(run[i]) && FreedIsGone(run[i])
    ensures forall t: nat :: t < |run[i].threads| ==>
      && AssertsHold(run[i], t)
      && (!run[i].threads[t].pc.Idle? ==> Enabled(run[i], t, Advance))
  {
    forall s | LockInit(s) ensures Inv(s) { InitHolds(s); }
    forall s, s' | Inv(s) && LockNext(s, s') ensures Inv(s') { StepKeepsInv(s, s'); }
    InvariantOnRun(run, LockInit, LockNext, Inv);
    InvExclusion(run[i]);
    InvConserves(run[i]);
    forall t: nat | t < |run[i].threads|
      ensures AssertsHold(run[i], t) && (!run[i].threads[t].pc.Idle? ==> Enabled(run[i], t, Advance))
    {
      InvAsserts(run[i], t);
    }
  }
}
