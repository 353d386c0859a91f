/**
 Atomic object references: any number of threads referencing, assigning and moving objects through
 any number of slots. One interlocked operation or one volatile read is one step. The machine is
 generic in how a slot word is represented; this module fixes the steps, AtomicRefLock gives words
 their meaning and AtomicRefBits their bits.
 */
module AtomicRef {
  import opened SlotWord

  /** Where a thread is. An `object` carried by a program counter may be NULL. */
  datatype Pc<W> =
    | Idle
    // reference an object: acquire shared, read the slot, count, release
    | SharedRead(slot: nat)
    | SharedCas(slot: nat, seen: W)
    | SharedHeld(slot: nat)
    | SharedReference(slot: nat, obj: Ptr)
    | SharedRelease(slot: nat, obj: Ptr)
    // store an object: acquire exclusive, drain readers, exchange, release
    | ExclusiveRead(slot: nat, obj: Ptr, assign: bool)
    | ExclusiveCas(slot: nat, seen: W, obj: Ptr, assign: bool)
    | ExclusiveDrain(slot: nat, seen: W, obj: Ptr, assign: bool)
    | ExclusiveHeld(slot: nat, obj: Ptr, assign: bool)
    | ExclusiveStore(slot: nat, obj: Ptr, previous: Ptr, assign: bool)
    | ExclusiveRelease(slot: nat, previous: Ptr, assign: bool)
    // off the slot
    | Returned(obj: Ptr)
    | Dereferencing(obj: Ptr)
    | Deleting(obj: Ptr)
  {
    predicate OnSlot() {
      !Idle? && !SharedReference? && !Returned? && !Dereferencing? && !Deleting?
    }
  }

  /** A thread and the references its caller owns. */
  datatype Thread<W> = Thread(pc: Pc<W>, held: multiset<Ptr>)

  /**
   `objects` maps each allocated object to its PointerCount; `total` is the type's live object
   counter; `created` and `deleted` are the history of allocations and deletions.
   */
  datatype State<W> = State(
    words: seq<W>,
    threads: seq<Thread<W>>,
    objects: map<Ptr, int>,
    total: int,
    created: multiset<Ptr>,
    deleted: multiset<Ptr>)

  datatype Local<W> = Local(pc: Pc<W>, word: W)

  /** What a thread does next: run on, or (when idle) make a call. */
  datatype Event =
    | Advance
    | CallReference(slot: nat)
    | CallAssign(slot: nat, obj: Ptr)
    | CallMove(slot: nat, obj: Ptr)
    | Create(obj: Ptr)
    | AddReference(obj: Ptr)
    | Drop(obj: Ptr)

  /** Where a store goes once it has released the lock and holds the previous object's reference. */
  function AfterStore<W>(previous: Ptr, assign: bool): Pc<W> {
    if assign && previous != NULL then Dereferencing(previous)
    else Returned(previous)
  }

  predicate Enabled<W>(s: State<W>, t: nat, e: Event)
    requires t < |s.threads|
  {
    var th := s.threads[t];
    match e
    case Advance =>
      && !th.pc.Idle?
      && (th.pc.OnSlot() ==> th.pc.slot < |s.words|)
      // touching a freed object is not a step of this machine: Inv shows it is never attempted
      && (th.pc.SharedReference? || th.pc.Dereferencing? || th.pc.Deleting? ==> th.pc.obj in s.objects)
    case CallReference(slot) => th.pc.Idle? && slot < |s.words|
    case CallAssign(slot, obj) =>
      th.pc.Idle? && slot < |s.words| && (obj != NULL ==> obj in th.held && obj in s.objects)
    case CallMove(slot, obj) =>
      th.pc.Idle? && slot < |s.words| && (obj != NULL ==> obj in th.held)
    case Create(obj) => th.pc.Idle? && obj != NULL && Aligned(obj) && obj !in s.objects
    case AddReference(obj) => th.pc.Idle? && obj != NULL && obj in th.held && obj in s.objects
    case Drop(obj) => th.pc.Idle? && obj != NULL && obj in th.held
  }

  function One(p: Ptr): multiset<Ptr> {
    if p == NULL then multiset{} else multiset{p}
  }

  function SetThread<W>(s: State<W>, t: nat, th: Thread<W>): State<W>
    requires t < |s.threads|
  {
    s.(threads := s.threads[t := th])
  }

  function Counted<W>(s: State<W>, p: Ptr, delta: int): State<W>
    requires p in s.objects
  {
    s.(objects := s.objects[p := s.objects[p] + delta])
  }

  /** A thread inside a call runs on. */
  function AdvancePost<W>(step: (Pc<W>, W) -> Local<W>, s: State<W>, t: nat): State<W>
    requires t < |s.threads| && Enabled(s, t, Advance)
  {
    var th := s.threads[t];
    if th.pc.OnSlot() then
      var slot := th.pc.slot;
      var local := step(th.pc, s.words[slot]);
      SetThread(s, t, th.(pc := local.pc)).(words := s.words[slot := local.word])
    else if th.pc.SharedReference? then
      SetThread(Counted(s, th.pc.obj, 1), t, th.(pc := SharedRelease(th.pc.slot, th.pc.obj)))
    else if th.pc.Returned? then
      SetThread(s, t, Thread(Idle, th.held + One(th.pc.obj)))
    else if th.pc.Dereferencing? then
      var counted := Counted(s, th.pc.obj, -1);
      SetThread(counted, t, th.(pc := if counted.objects[th.pc.obj] > 0 then Idle else Deleting(th.pc.obj)))
    else
      SetThread(s, t, th.(pc := Idle)).(objects := s.objects - {th.pc.obj}, total := s.total - 1,
                                        deleted := s.deleted + multiset{th.pc.obj})
  }

  /** An idle thread after making a call or using a reference it owns. */
  function Called<W>(th: Thread<W>, e: Event): Thread<W>
    requires !e.Advance?
  {
    match e
    case CallReference(slot) => th.(pc := SharedRead(slot))
    case CallAssign(slot, obj) => th.(pc := ExclusiveRead(slot, obj, true))
    case CallMove(slot, obj) => Thread(ExclusiveRead(slot, obj, false), th.held - One(obj))
    case Create(obj) => th.(held := th.held + multiset{obj})
    case AddReference(obj) => th.(held := th.held + multiset{obj})
    case Drop(obj) => Thread(Dereferencing(obj), th.held - multiset{obj})
  }

  /** What such a call does to the objects. */
  function CallObjects<W>(s: State<W>, e: Event): State<W>
    requires e.AddReference? || (e.CallAssign? && e.obj != NULL) ==> e.obj in s.objects
  {
    if e.Create? then
      s.(objects := s.objects[e.obj := 1], total := s.total + 1, created := s.created + multiset{e.obj})
    else if e.AddReference? || (e.CallAssign? && e.obj != NULL) then Counted(s, e.obj, 1)
    else s
  }

  function CallPost<W>(s: State<W>, t: nat, e: Event): State<W>
    requires t < |s.threads| && !e.Advance? && Enabled(s, t, e)
  {
    SetThread(CallObjects(s, e), t, Called(s.threads[t], e))
  }

  /** The state after thread `t` takes event `e`; `step` is the thread-local effect on a slot word. */
  function Post<W>(step: (Pc<W>, W) -> Local<W>, s: State<W>, t: nat, e: Event): State<W>
    requires t < |s.threads| && Enabled(s, t, e)
  {
    if e.Advance? then AdvancePost(step, s, t) else CallPost(s, t, e)
  }

  ghost predicate StepBy<W>(step: (Pc<W>, W) -> Local<W>, s: State<W>, s': State<W>, t: nat, e: Event) {
    t < |s.threads| && Enabled(s, t, e) && s' == Post(step, s, t, e)
  }

  ghost predicate Next<W>(step: (Pc<W>, W) -> Local<W>, s: State<W>, s': State<W>) {
    exists t: nat, e: Event :: StepBy(step, s, s', t, e)
  }

  /** Nothing is stored, held or allocated, and every thread is idle. */
  ghost predicate Init<W>(empty: W, s: State<W>) {
    && (forall w :: w in s.words ==> w == empty)
    && (forall th :: th in s.threads ==> th == Thread(Idle, multiset{}))
    && s.objects == map[] && s.total == 0
    && s.created == multiset{} && s.deleted == multiset{}
  }
}
