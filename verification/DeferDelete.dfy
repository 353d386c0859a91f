/**
 Deferred deletion: threads push dead objects on a lock-free list and queue one shared work item
 only when the list was empty; a worker takes the whole list and deletes it object by object. Any
 thread may also be the system worker that runs the item.
 */
module DeferDelete {
  import opened Runs
  import opened Tally

  type Obj = nat

  datatype Pc =
    | Idle
    | Pushing(obj: Obj)
    | Queueing
    | Dequeued
    | Deleting(entries: seq<Obj>)

  /**
   `handed` and `deleted` are the history of objects handed over and deleted; `driverRefs` counts
   the references outstanding work items hold on the driver.
   */
  datatype State = State(
    list: seq<Obj>,
    queued: nat,
    driverRefs: nat,
    threads: seq<Pc>,
    handed: multiset<Obj>,
    deleted: multiset<Obj>)

  datatype Event = Give(obj: Obj) | Dequeue | Advance

  predicate Enabled(s: State, t: nat, e: Event)
    requires t < |s.threads|
  {
    match e
    case Give(_) => s.threads[t].Idle?
    case Dequeue => s.threads[t].Idle? && s.queued > 0
    case Advance => !s.threads[t].Idle?
  }

  function At(s: State, t: nat, pc: Pc): State
    requires t < |s.threads|
  {
    s.(threads := s.threads[t := pc])
  }

  function Post(s: State, t: nat, e: Event): State
    requires t < |s.threads| && Enabled(s, t, e)
  {
    match e
    case Give(obj) => At(s, t, Pushing(obj)).(handed := s.handed + multiset{obj})
    case Dequeue => At(s, t, Dequeued).(queued := s.queued - 1)
    case Advance =>
      match s.threads[t]
      case Pushing(obj) => At(s, t, if s.list == [] then Queueing else Idle).(list := [obj] + s.list)
      case Queueing => At(s, t, Idle).(queued := s.queued + 1, driverRefs := s.driverRefs + 1)
      case Dequeued => At(s, t, Deleting(s.list)).(list := [])
      case Deleting(entries) =>
        if entries == [] then
          At(s, t, Idle).(driverRefs := if s.driverRefs == 0 then 0 else s.driverRefs - 1)
        else
          At(s, t, Deleting(entries[1..])).(deleted := s.deleted + multiset{entries[0]})
      case Idle => s
  }

  ghost predicate StepBy(s: State, s': State, t: nat, e: Event) {
    t < |s.threads| && Enabled(s, t, e) && s' == Post(s, t, e)
  }

  ghost predicate Next(s: State, s': State) {
    exists t: nat, e: Event :: StepBy(s, s', t, e)
  }

  ghost predicate Init(s: State) {
    && s.list == [] && s.queued == 0 && s.driverRefs == 0
    && s.handed == multiset{} && s.deleted == multiset{}
    && forall pc :: pc in s.threads ==> pc == Idle
  }

  // ---- weights ----

  /** Threads that owe the list a flush. */
  function Owes(k: (), pc: Pc): nat {
    if pc.Queueing? || pc.Dequeued? then 1 else 0
  }

  function Working(k: (), pc: Pc): nat {
    if pc.Dequeued? || pc.Deleting? then 1 else 0
  }

  function Carries(obj: Obj, pc: Pc): nat {
    match pc
    case Pushing(o) => if o == obj then 1 else 0
    case Deleting(entries) => multiset(entries)[obj]
    case _ => 0
  }

  // ---- invariant ----

  /** The list is non-empty exactly when one pusher, one queued item or one worker owes it a flush, never two. */
  ghost predicate OneFlushOwed(s: State) {
    s.queued + Total(s.threads, Owes, ()) == if s.list == [] then 0 else 1
  }

  /** An object handed over is deleted, on the list, or in one thread's hands. */
  ghost predicate Accounted(s: State, obj: Obj) {
    s.handed[obj] == s.deleted[obj] + multiset(s.list)[obj] + Total(s.threads, Carries, obj)
  }

  ghost predicate Inv(s: State) {
    && OneFlushOwed(s)
    && (forall obj :: Accounted(s, obj))
    && s.driverRefs == s.queued + Total(s.threads, Working, ())
  }

  lemma SplitHead(entries: seq<Obj>)
    requires entries != []
    ensures multiset(entries) == multiset{entries[0]} + multiset(entries[1..])
  {
    assert entries == [entries[0]] + entries[1..];
  }

  lemma PushAccounts(s: State, t: nat, obj: Obj)
    requires t < |s.threads| && s.threads[t].Pushing? && Accounted(s, obj)
    ensures Accounted(Post(s, t, Advance), obj)
  {
    var s' := Post(s, t, Advance);
    TotalUpdate(s.threads, t, s'.threads[t], Carries, obj);
    SplitHead(s'.list);
    assert s'.list[1..] == s.list;
  }

  lemma WorkerAccounts(s: State, t: nat, obj: Obj)
    requires t < |s.threads| && (s.threads[t].Dequeued? || s.threads[t].Deleting?) && Accounted(s, obj)
    ensures Accounted(Post(s, t, Advance), obj)
  {
    var s' := Post(s, t, Advance);
    TotalUpdate(s.threads, t, s'.threads[t], Carries, obj);
    if s.threads[t].Deleting? && s.threads[t].entries != [] {
      SplitHead(s.threads[t].entries);
    }
  }

  lemma StepAccounts(s: State, s': State, t: nat, e: Event, obj: Obj)
    requires StepBy(s, s', t, e) && Accounted(s, obj)
    ensures Accounted(s', obj)
  {
    if e.Advance? && s.threads[t].Pushing? {
      PushAccounts(s, t, obj);
    } else if e.Advance? && !s.threads[t].Queueing? {
      WorkerAccounts(s, t, obj);
    } else {
      TotalUpdate(s.threads, t, s'.threads[t], Carries, obj);
    }
  }

  lemma StepKeepsFlush(s: State, s': State, t: nat, e: Event)
    requires OneFlushOwed(s) && StepBy(s, s', t, e)
    ensures OneFlushOwed(s')
  {
    TotalUpdate(s.threads, t, s'.threads[t], Owes, ());
    TotalAtLeast(s.threads, t, Owes, ());
  }

  lemma StepKeepsDriver(s: State, s': State, t: nat, e: Event)
    requires s.driverRefs == s.queued + Total(s.threads, Working, ()) && StepBy(s, s', t, e)
    ensures s'.driverRefs == s'.queued + Total(s'.threads, Working, ())
  {
    TotalUpdate(s.threads, t, s'.threads[t], Working, ());
    TotalAtLeast(s.threads, t, Working, ());
  }

  lemma StepKeepsInv(s: State, s': State)
    requires Inv(s) && Next(s, s')
    ensures Inv(s')
  {
    var t: nat, e: Event :| StepBy(s, s', t, e);
    hide StepBy, OneFlushOwed, Accounted;
    StepKeepsFlush(s, s', t, e);
    StepKeepsDriver(s, s', t, e);
    forall obj ensures Accounted(s', obj) {
      StepAccounts(s, s', t, e, obj);
    }
  }

  lemma InitHolds(s: State)
    requires Init(s)
    ensures Inv(s)
  {
    TotalZero(s.threads, Owes, ());
    TotalZero(s.threads, Working, ());
    forall obj ensures Accounted(s, obj) {
      TotalZero(s.threads, Carries, obj);
    }
  }

  // ---- what every run guarantees ----

  lemma SafeInEveryRun(run: seq<State>, i: nat)
    requires IsRun(run, Init, Next) && i < |run|
    ensures Inv(run[i])
    // the work item is never queued while it is queued
    ensures forall t: nat :: t < |run[i].threads| && run[i].threads[t].Queueing? ==> run[i].queued == 0
    // no object is deleted more often than it was handed over
    ensures run[i].deleted <= run[i].handed
  {
    forall s | Init(s) ensures Inv(s) { InitHolds(s); }
    forall s, s' | Inv(s) && Next(s, s') ensures Inv(s') { StepKeepsInv(s, s'); }
    InvariantOnRun(run, Init, Next, Inv);
    var s := run[i];
    forall t: nat | t < |s.threads| && s.threads[t].Queueing? ensures s.queued == 0 {
      TotalAtLeast(s.threads, t, Owes, ());
    }
    forall obj ensures s.deleted[obj] <= s.handed[obj] {
      assert Accounted(s, obj);
    }
  }

  // ---- nothing is lost: without new hand-overs every schedule ends, with everything deleted ----

  /** Steps still owed by a thread. */
  function ThreadWork(k: (), pc: Pc): nat {
    match pc
    case Idle => 0
    case Pushing(_) => 6
    case Queueing => 4
    case Dequeued => 2
    case Deleting(entries) => 1 + |entries|
  }

  function Work(s: State): nat {
    |s.list| + 3 * s.queued + Total(s.threads, ThreadWork, ())
  }

  /** Every step but a new hand-over brings the end nearer. */
  lemma StepReducesWork(s: State, s': State, t: nat, e: Event)
    requires StepBy(s, s', t, e) && !e.Give?
    ensures Work(s') < Work(s)
  {
    TotalUpdate(s.threads, t, s'.threads[t], ThreadWork, ());
  }

  /** While work remains some thread can take such a step; when none remains everything handed over is deleted once. */
  lemma NothingIsLost(s: State)
    requires Inv(s) && s.threads != []
    ensures Work(s) == 0 ==> s.handed == s.deleted && s.driverRefs == 0
    ensures Work(s) > 0 ==> exists t: nat, e: Event :: t < |s.threads| && !e.Give? && Enabled(s, t, e)
  {
    if forall pc :: pc in s.threads ==> pc == Idle {
      TotalZero(s.threads, ThreadWork, ());
      TotalZero(s.threads, Owes, ());
      TotalZero(s.threads, Working, ());
      assert s.threads[0] in s.threads;
      if s.queued > 0 {
        assert Enabled(s, 0, Dequeue);
      } else {
        forall obj ensures s.handed[obj] == s.deleted[obj] {
          assert Accounted(s, obj);
          TotalZero(s.threads, Carries, obj);
        }
      }
    } else {
      var t: nat :| t < |s.threads| && s.threads[t] != Idle;
      TotalAtLeast(s.threads, t, ThreadWork, ());
      assert Enabled(s, t, Advance);
    }
  }
}
