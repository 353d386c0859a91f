/**
 The specification an atomic object reference meets: a register per slot whose load and exchange
 are single steps, and references that follow the values loaded and exchanged. The shared read of
 the slot is where a load takes effect, the interlocked exchange is where a store does.
 */
module AtomicRefRegister {
  import opened SlotWord
  import AtomicRef
  import opened AtomicRefLock
  import opened Runs
  import opened Tally
  import Bits = AtomicRefBits

  datatype RegPc =
    | Ready
    | Loading(slot: nat)
    | Storing(slot: nat, obj: Ptr, assign: bool)
    | Owning(obj: Ptr)
    | Releasing(obj: Ptr)

  datatype RegThread = RegThread(pc: RegPc, held: multiset<Ptr>)
  datatype RegState = RegState(values: seq<Ptr>, threads: seq<RegThread>)

  function Outcome(previous: Ptr, assign: bool): RegPc {
    if assign && previous != NULL then Releasing(previous) else Owning(previous)
  }

  /** The two atomic operations, and everything that touches no register; a thread outside a call does what is asked. */
  ghost predicate RegStep(r: RegState, r': RegState, t: nat, e: AtomicRef.Event) {
    && t < |r.threads| == |r'.threads|
    && r'.threads == r.threads[t := r'.threads[t]]
    && (e.Advance? <==> !r.threads[t].pc.Ready?)
    && var th, th' := r.threads[t], r'.threads[t];
      match th.pc
      case Loading(i) =>
        i < |r.values| && r'.values == r.values && th' == th.(pc := Owning(r.values[i]))
      case Storing(i, obj, assign) =>
        i < |r.values| && r'.values == r.values[i := obj] && th' == th.(pc := Outcome(r.values[i], assign))
      case Owning(obj) => r'.values == r.values && th' == RegThread(Ready, th.held + AtomicRef.One(obj))
      case Releasing(obj) => r'.values == r.values && th' == th.(pc := Ready)
      case Ready => r'.values == r.values && OwnerStep(r, th, th', e)
  }

  /** What an idle owner may ask for: a load, a store, or a reference of its own to duplicate, create or give up. */
  ghost predicate OwnerStep(r: RegState, th: RegThread, th': RegThread, e: AtomicRef.Event) {
    match e
    case CallReference(i) => th' == RegThread(Loading(i), th.held)
    case CallAssign(i, obj) => (obj != NULL ==> obj in th.held) && th' == RegThread(Storing(i, obj, true), th.held)
    case CallMove(i, obj) =>
      (obj != NULL ==> obj in th.held) && th' == RegThread(Storing(i, obj, false), th.held - AtomicRef.One(obj))
    case Create(obj) => obj != NULL && Unreferenced(r, obj) && th' == RegThread(Ready, th.held + multiset{obj})
    case AddReference(obj) => obj != NULL && obj in th.held && th' == RegThread(Ready, th.held + multiset{obj})
    case Drop(obj) => obj in th.held && th' == RegThread(Releasing(obj), th.held - multiset{obj})
    case Advance => false
  }

  ghost predicate Unreferenced(r: RegState, p: Ptr) {
    Total(r.values, RegNames, p) == 0 && Total(r.threads, RegOwns, p) == 0
  }

  /** A step inside a call may also change nothing an owner can see. */
  ghost predicate RegMoves(r: RegState, m: Move<AtomicRef.Event>, r': RegState) {
    (m.e.Advance? && r' == r) || RegStep(r, r', m.t, m.e)
  }

  ghost predicate RegNext(r: RegState, r': RegState) {
    exists m :: RegMoves(r, m, r')
  }

  ghost predicate RegInit(r: RegState) {
    && (forall v :: v in r.values ==> v == NULL)
    && (forall th :: th in r.threads ==> th == RegThread(Ready, multiset{}))
  }

  /** References a register-level thread owns, from the moment its load or exchange took effect. */
  function RegOwns(p: Ptr, th: RegThread): nat {
    th.held[p] + (if p != NULL && (th.pc.Storing? || th.pc.Owning? || th.pc.Releasing?) && th.pc.obj == p then 1 else 0)
  }

  function RegNames(p: Ptr, v: Ptr): nat {
    if v == p then 1 else 0
  }

  // ---- reading a lock-level state as registers ----

  function AbsPc(pc: LockPc): RegPc {
    match pc
    case SharedRead(i) => Loading(i)
    case SharedCas(i, _) => Loading(i)
    case SharedHeld(i) => Loading(i)
    case SharedReference(_, obj) => Owning(obj)
    case SharedRelease(_, obj) => Owning(obj)
    case ExclusiveRead(i, obj, assign) => Storing(i, obj, assign)
    case ExclusiveCas(i, _, obj, assign) => Storing(i, obj, assign)
    case ExclusiveDrain(i, _, obj, assign) => Storing(i, obj, assign)
    case ExclusiveHeld(i, obj, assign) => Storing(i, obj, assign)
    case ExclusiveStore(i, obj, _, assign) => Storing(i, obj, assign)
    case ExclusiveRelease(_, previous, assign) => Outcome(previous, assign)
    case Returned(obj) => Owning(obj)
    case Dereferencing(obj) => Releasing(obj)
    case Idle => Ready
    case Deleting(_) => Ready
  }

  function AbsThread(th: AtomicRef.Thread<Lock>): RegThread {
    RegThread(AbsPc(th.pc), th.held)
  }

  function Abs(s: LockState): RegState {
    RegState(seq(|s.words|, i requires 0 <= i < |s.words| => s.words[i].obj),
             seq(|s.threads|, t requires 0 <= t < |s.threads| => AbsThread(s.threads[t])))
  }

  // ---- the register-level ledger against PointerCount ----

  function Uncounted(p: Ptr, th: AtomicRef.Thread<Lock>): nat {
    if p != NULL && th.pc.SharedReference? && th.pc.obj == p then 1 else 0
  }

  lemma {:induction false} OwnersAgree(ths: seq<AtomicRef.Thread<Lock>>, rths: seq<RegThread>, p: Ptr)
    requires |ths| == |rths| && forall t :: 0 <= t < |ths| ==> rths[t] == AbsThread(ths[t])
    ensures Total(rths, RegOwns, p) == Total(ths, Owns, p) + Total(ths, Uncounted, p)
  {
    if ths != [] {
      assert rths[0] == AbsThread(ths[0]);
      OwnersAgree(ths[1..], rths[1..], p);
    }
  }

  lemma {:induction false} NamesAgree(words: seq<Lock>, values: seq<Ptr>, p: Ptr)
    requires |words| == |values| && forall i :: 0 <= i < |words| ==> values[i] == words[i].obj
    ensures Total(values, RegNames, p) == Total(words, Names, p)
  {
    if words != [] {
      NamesAgree(words[1..], values[1..], p);
    }
  }

  /** PointerCount is the register-level references, less the readers that have loaded but not yet counted. */
  lemma CountTracksRegisters(s: LockState, p: Ptr)
    requires Inv(s) && p in s.objects
    ensures s.objects[p] == Total(Abs(s).values, RegNames, p) + Total(Abs(s).threads, RegOwns, p)
                            - Total(s.threads, Uncounted, p)
  {
    assert RefsOk(s, p);
    OwnersAgree(s.threads, Abs(s).threads, p);
    NamesAgree(s.words, Abs(s).values, p);
  }

  /** An object that does not exist is referenced nowhere, not even by a reader yet to count it. */
  lemma FreedIsUnreferenced(s: LockState, p: Ptr)
    requires Inv(s) && p != NULL && p !in s.objects
    ensures Unreferenced(Abs(s), p)
  {
    InvConserves(s);
    OwnersAgree(s.threads, Abs(s).threads, p);
    NamesAgree(s.words, Abs(s).values, p);
    forall t | 0 <= t < |s.threads| ensures Uncounted(p, s.threads[t]) == 0 {
      var pc := s.threads[t].pc;
      if pc.SharedReference? && pc.obj == p {
        assert PcOk(s, pc);
        StoredIsLive(s, pc.slot);
      }
    }
    TotalZero(s.threads, Uncounted, p);
  }

  // ---- refinement ----

  /** A step on a word either leaves the register view of thread and slot alone or is the load or the exchange. */
  lemma LocalSimulates(pc: LockPc, w: Lock)
    requires pc.OnSlot() && PcFits(pc, w)
    ensures
      var local := LockStep(pc, w);
      if pc.SharedHeld? then local.word == w && AbsPc(local.pc) == Owning(w.obj)
      else if pc.ExclusiveStore? then local.word.obj == pc.obj && AbsPc(local.pc) == Outcome(w.obj, pc.assign)
      else local.word.obj == w.obj && AbsPc(local.pc) == AbsPc(pc)
  {
  }

  lemma SlotStepSimulates(s: LockState, t: nat)
    requires Inv(s) && t < |s.threads| && s.threads[t].pc.OnSlot() && s.threads[t].pc.slot < |s.words|
    ensures RegMoves(Abs(s), Move(t, AtomicRef.Advance), Abs(SlotPost(s, t)))
  {
    var pc := s.threads[t].pc;
    assert PcOk(s, pc);
    LocalSimulates(pc, s.words[pc.slot]);
    var r, r' := Abs(s), Abs(SlotPost(s, t));
    assert r.threads[t] == AbsThread(s.threads[t]);
    assert r'.threads == r.threads[t := r'.threads[t]];
    if pc.SharedHeld? {
      assert r'.values == r.values;
      assert RegStep(r, r', t, AtomicRef.Advance);
    } else if pc.ExclusiveStore? {
      assert r'.values == r.values[pc.slot := pc.obj];
      assert RegStep(r, r', t, AtomicRef.Advance);
    } else {
      assert r'.values == r.values;
      assert r'.threads == r.threads;
    }
  }

  lemma AbsFrame(s: LockState, s': LockState, t: nat)
    requires t < |s.threads| == |s'.threads| && s'.words == s.words
    requires s'.threads == s.threads[t := s'.threads[t]]
    ensures Abs(s').values == Abs(s).values
    ensures Abs(s').threads == Abs(s).threads[t := AbsThread(s'.threads[t])]
    ensures Abs(s).threads[t] == AbsThread(s.threads[t])
  {
  }

  /** What an own step off the slot does to the register view of its thread. */
  function OffSlot(th: RegThread, pc: LockPc): RegThread {
    match pc
    case Returned(obj) => RegThread(Ready, th.held + AtomicRef.One(obj))
    case Dereferencing(_) => th.(pc := Ready)
    case _ => th
  }

  lemma AdvanceEffect(s: LockState, s': LockState, t: nat)
    requires AtomicRef.StepBy(LockStep, s, s', t, AtomicRef.Advance) && !s.threads[t].pc.OnSlot()
    ensures !s.threads[t].pc.Idle? && s'.words == s.words && |s'.threads| == |s.threads|
    ensures s'.threads == s.threads[t := s'.threads[t]]
    ensures AbsThread(s'.threads[t]) == OffSlot(AbsThread(s.threads[t]), s.threads[t].pc)
  {
    hide LockStep, AtomicRef.CallPost, AtomicRef.One;
  }

  lemma AdvanceOffSlotSimulates(s: LockState, s': LockState, t: nat)
    requires AtomicRef.StepBy(LockStep, s, s', t, AtomicRef.Advance) && !s.threads[t].pc.OnSlot()
    ensures RegMoves(Abs(s), Move(t, AtomicRef.Advance), Abs(s'))
  {
    var r, r' := Abs(s), Abs(s');
    AdvanceEffect(s, s', t);
    AbsFrame(s, s', t);
    hide Abs, AtomicRef.StepBy, OwnerStep, AtomicRef.One;
    if s.threads[t].pc.SharedReference? || s.threads[t].pc.Deleting? {
      assert r'.threads == r.threads;
    } else {
      assert RegStep(r, r', t, AtomicRef.Advance);
    }
  }

  lemma CallIsOwnerStep(r: RegState, th: AtomicRef.Thread<Lock>, e: AtomicRef.Event)
    requires th.pc.Idle? && !e.Advance?
    requires !e.Create? && !e.CallReference? && (e.obj != NULL || e.Drop?) ==> e.obj in th.held
    requires e.Create? || e.AddReference? || e.Drop? ==> e.obj != NULL
    requires e.Create? ==> Unreferenced(r, e.obj)
    ensures OwnerStep(r, AbsThread(th), AbsThread(AtomicRef.Called(th, e)), e)
  {
    hide AtomicRef.One, Unreferenced;
  }

  lemma CallSimulates(s: LockState, s': LockState, t: nat, e: AtomicRef.Event)
    requires Inv(s) && AtomicRef.StepBy(LockStep, s, s', t, e) && !e.Advance?
    ensures RegMoves(Abs(s), Move(t, e), Abs(s'))
  {
    CallEffect(s, s', t, e);
    if e.Create? {
      FreedIsUnreferenced(s, e.obj);
    }
    CallIsOwnerStep(Abs(s), s.threads[t], e);
    AbsFrame(s, s', t);
    hide AtomicRef.Post, AtomicRef.Enabled, OwnerStep, Abs, AtomicRef.Called, Inv;
    assert RegStep(Abs(s), Abs(s'), t, e);
  }

  /** Each move is the register's move of the same name, or one inside a call that changes nothing. */
  lemma MoveSimulates(s: LockState, m: Move<AtomicRef.Event>, s': LockState)
    requires Inv(s) && LockMoves(s, m, s')
    ensures RegMoves(Abs(s), m, Abs(s'))
  {
    if m.e.Advance? && s.threads[m.t].pc.OnSlot() {
      assert s' == SlotPost(s, m.t);
      SlotStepSimulates(s, m.t);
    } else if m.e.Advance? {
      AdvanceOffSlotSimulates(s, s', m.t);
    } else {
      CallSimulates(s, s', m.t, m.e);
    }
  }

  lemma StepSimulates(s: LockState, s': LockState)
    requires Inv(s) && LockNext(s, s')
    ensures RegNext(Abs(s), Abs(s'))
  {
    var t: nat, e: AtomicRef.Event :| AtomicRef.StepBy(LockStep, s, s', t, e);
    MoveSimulates(s, Move(t, e), s');
  }

  /** Every run of the lock machine is a run of atomic registers. */
  lemma RunLinearizes(run: seq<LockState>)
    requires IsRun(run, LockInit, LockNext)
    ensures IsRun(seq(|run|, i requires 0 <= i < |run| => Abs(run[i])), RegInit, RegNext)
  {
    forall s | LockInit(s) ensures Inv(s) { InitHolds(s); }
    forall s, s' | Inv(s) && LockNext(s, s') ensures Inv(s') { StepKeepsInv(s, s'); }
    InvariantOnRun(run, LockInit, LockNext, Inv);
    var abs := seq(|run|, i requires 0 <= i < |run| => Abs(run[i]));
    forall v | v in abs[0].values ensures v == NULL {
      var i :| 0 <= i < |run[0].words| && v == run[0].words[i].obj;
      assert run[0].words[i] in run[0].words;
    }
    forall th | th in abs[0].threads ensures th == RegThread(Ready, multiset{}) {
      var t :| 0 <= t < |run[0].threads| && th == AbsThread(run[0].threads[t]);
      assert run[0].threads[t] in run[0].threads;
    }
    forall i | 0 <= i < |abs| - 1 ensures RegNext(abs[i], abs[i + 1]) {
      StepSimulates(run[i], run[i + 1]);
    }
  }

  /** End to end: every run on machine words is a run of atomic registers. */
  lemma BitRunLinearizes(run: seq<Bits.BitState>)
    requires IsRun(run, Bits.BitInit, Bits.BitNext)
    ensures IsRun(seq(|run|, i requires 0 <= i < |run| => Abs(Bits.Lift(run[i]))), RegInit, RegNext)
  {
    Bits.RunRefines(run);
    var lifted := seq(|run|, i requires 0 <= i < |run| => Bits.Lift(run[i]));
    RunLinearizes(lifted);
    assert seq(|run|, i requires 0 <= i < |run| => Abs(Bits.Lift(run[i])))
        == seq(|lifted|, i requires 0 <= i < |lifted| => Abs(lifted[i]));
  }
}
