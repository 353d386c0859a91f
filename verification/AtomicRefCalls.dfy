/**
 What a caller of the atomic reference functions gets, over whole runs on machine words: from the
 call to the moment its thread is idle again, with any other threads in between.
 */
module AtomicRefCalls {
  import opened Basics
  import opened SlotWord
  import opened AtomicRef
  import opened AtomicRefLock
  import opened AtomicRefRegister
  import opened Runs
  import opened Tally
  import Bits = AtomicRefBits

  type Trace = seq<Move<Event>>

  /** Thread `t` makes a call at `a` and is idle again, for the first time, at `b`. */
  ghost predicate CallSpans<W>(run: seq<State<W>>, trace: Trace, t: nat, a: nat, b: nat) {
    && a < b < |run| == |trace| + 1 && trace[a].t == t && t < |run[a].threads|
    && (forall k :: a < k < b ==> t < |run[k].threads| && !run[k].threads[t].pc.Idle?)
    && t < |run[b].threads| && run[b].threads[t].pc.Idle?
  }

  // ---- one thread's view of a run ----

  ghost predicate LockTrace(run: seq<LockState>, trace: Trace) {
    IsTrace(run, trace, LockInit, LockMoves)
  }

  lemma InvOnTrace(run: seq<LockState>, trace: Trace, k: nat)
    requires LockTrace(run, trace) && k < |run|
    ensures Inv(run[k])
  {
    forall s | LockInit(s) ensures Inv(s) { InitHolds(s); }
    forall s, m, s' | Inv(s) && LockMoves(s, m, s') ensures Inv(s') { MoveKeepsInv(s, m, s'); }
    TraceInvariant(run, trace, LockInit, LockMoves, Inv, k);
  }

  /** What the moves of one thread do to the register view of another. */
  lemma OthersMove(run: seq<LockState>, trace: Trace, t: nat, k: nat)
    requires LockTrace(run, trace) && k < |trace| && trace[k].t != t && t < |run[k].threads|
    ensures t < |run[k + 1].threads| && run[k + 1].threads[t] == run[k].threads[t]
  {
    assert LockMoves(run[k], trace[k], run[k + 1]);
    hide LockStep, AtomicRef.Called, AtomicRef.CallObjects;
  }

  /** An own move of a thread inside a call: the register's move, or one nobody can see. */
  lemma OwnMove(run: seq<LockState>, trace: Trace, t: nat, k: nat)
    requires LockTrace(run, trace) && k < |trace| && trace[k].t == t && t < |run[k].threads|
    requires !run[k].threads[t].pc.Idle?
    ensures t < |run[k + 1].threads| && t < |Abs(run[k]).threads| && t < |Abs(run[k + 1]).threads|
    ensures Abs(run[k]).threads[t] == AbsThread(run[k].threads[t])
    ensures Abs(run[k + 1]).threads[t] == AbsThread(run[k + 1].threads[t])
    ensures Abs(run[k + 1]) == Abs(run[k]) || RegStep(Abs(run[k]), Abs(run[k + 1]), t, Advance)
  {
    InvOnTrace(run, trace, k);
    assert LockMoves(run[k], trace[k], run[k + 1]);
    assert trace[k].e == Advance;
    MoveSimulates(run[k], trace[k], run[k + 1]);
    SameThreads(run[k], trace[k], run[k + 1]);
    hide Inv, RegStep, AtomicRef.Post;
  }

  lemma SameThreads(s: LockState, m: Move<Event>, s': LockState)
    requires LockMoves(s, m, s')
    ensures m.t < |s.threads| == |s'.threads|
  {
    hide LockStep, AtomicRef.Called, AtomicRef.One;
  }

  function Values(s: LockState): seq<Ptr> {
    Abs(s).values
  }

  /** The move that makes a call. */
  lemma CallMove(run: seq<LockState>, trace: Trace, t: nat, a: nat)
    requires LockTrace(run, trace) && a < |trace| && trace[a].t == t && !trace[a].e.Advance?
    ensures t < |run[a].threads| && t < |run[a + 1].threads|
    ensures Values(run[a + 1]) == Values(run[a])
    ensures OwnerStep(Abs(run[a]), AbsThread(run[a].threads[t]), AbsThread(run[a + 1].threads[t]), trace[a].e)
  {
    InvOnTrace(run, trace, a);
    assert LockMoves(run[a], trace[a], run[a + 1]);
    MoveSimulates(run[a], trace[a], run[a + 1]);
    SameThreads(run[a], trace[a], run[a + 1]);
    hide Inv, OwnerStep, AtomicRef.Post;
    assert |Abs(run[a]).threads| == |run[a].threads| && |Abs(run[a + 1]).threads| == |run[a + 1].threads|;
    assert Abs(run[a]).threads[t] == AbsThread(run[a].threads[t]);
    assert Abs(run[a + 1]).threads[t] == AbsThread(run[a + 1].threads[t]);
  }

  /** No own move of the thread from `lo` to `hi`, but for the one at `m`, changes what any slot holds. */
  ghost predicate OnlyStoresAt(run: seq<LockState>, trace: Trace, t: nat, lo: nat, hi: nat, m: nat)
    requires hi < |run| == |trace| + 1
  {
    forall k :: lo <= k < hi && trace[k].t == t && k != m ==> Values(run[k + 1]) == Values(run[k])
  }

  // ---- a reference ----

  /** A thread that began a load owning `held`; `got` is what it read, once it has. */
  ghost predicate LoadsTo(th: RegThread, held: multiset<Ptr>, i: nat, got: Option<Ptr>) {
    match got
    case None => th == RegThread(Loading(i), held)
    case Some(v) => th == RegThread(Owning(v), held) || th == RegThread(Ready, held + One(v))
  }

  lemma LoadStep(r: RegState, r': RegState, t: nat, held: multiset<Ptr>, i: nat, got: Option<Ptr>)
    requires RegStep(r, r', t, Advance) && LoadsTo(r.threads[t], held, i, got)
    ensures r'.values == r.values && (got.None? ==> i < |r.values|)
    ensures LoadsTo(r'.threads[t], held, i, if got.None? then Some(r.values[i]) else got)
  {
    hide One;
  }

  ghost predicate ReadAt(run: seq<LockState>, a: nat, k: nat, i: nat, got: Option<Ptr>, m: nat)
    requires k < |run|
  {
    got.Some? ==> a < m < k && i < |Values(run[m])| && got.value == Values(run[m])[i]
  }

  lemma {:induction false} LoadsUntil(run: seq<LockState>, trace: Trace, t: nat, a: nat, i: nat, k: nat)
      returns (got: Option<Ptr>, m: nat)
    requires LockTrace(run, trace) && a < k < |run| == |trace| + 1 && trace[a] == Move(t, CallReference(i)) && t < |run[a].threads|
    requires forall j :: a < j < k ==> t < |run[j].threads| && !run[j].threads[t].pc.Idle?
    ensures t < |run[k].threads| && LoadsTo(AbsThread(run[k].threads[t]), run[a].threads[t].held, i, got)
    ensures ReadAt(run, a, k, i, got, m) && OnlyStoresAt(run, trace, t, a, k, k)
    decreases k
  {
    hide LockTrace, LoadsTo, AbsThread, RegStep, Values, Abs, AbsPc;
    if k == a + 1 {
      CallMove(run, trace, t, a);
      CalledLoads(run[a], run[a + 1], t, i);
      got, m := None, a;
    } else {
      got, m := LoadsUntil(run, trace, t, a, i, k - 1);
      if trace[k - 1].t == t {
        OwnMove(run, trace, t, k - 1);
        ValuesAre(run[k - 1]);
        ValuesAre(run[k]);
        if Abs(run[k]) != Abs(run[k - 1]) {
          LoadStep(Abs(run[k - 1]), Abs(run[k]), t, run[a].threads[t].held, i, got);
          if got.None? {
            got, m := Some(Values(run[k - 1])[i]), k - 1;
          }
        }
      } else {
        OthersMove(run, trace, t, k - 1);
      }
    }
  }

  lemma ValuesAre(s: LockState)
    ensures Values(s) == Abs(s).values
  {
  }

  lemma CalledLoads(s: LockState, s': LockState, t: nat, i: nat)
    requires t < |s.threads| && t < |s'.threads|
    requires OwnerStep(Abs(s), AbsThread(s.threads[t]), AbsThread(s'.threads[t]), CallReference(i))
    ensures LoadsTo(AbsThread(s'.threads[t]), s.threads[t].held, i, None)
  {
  }

  // ---- a store ----

  /** A thread that began a store, and will own `held` until it ends; `got` is what it took out, once it has. */
  ghost predicate StoresTo(th: RegThread, held: multiset<Ptr>, i: nat, obj: Ptr, assign: bool, got: Option<Ptr>) {
    match got
    case None => th == RegThread(Storing(i, obj, assign), held)
    case Some(v) => th == RegThread(Outcome(v, assign), held) || th == RegThread(Ready, StoreLeaves(held, assign, v))
  }

  /** What the caller owns after a store: a move hands the previous object over, an assign gives it up. */
  function StoreLeaves(held: multiset<Ptr>, assign: bool, previous: Ptr): multiset<Ptr> {
    if assign then held else held + One(previous)
  }

  lemma StoreStep(r: RegState, r': RegState, t: nat, held: multiset<Ptr>, i: nat, obj: Ptr, assign: bool, got: Option<Ptr>)
    requires RegStep(r, r', t, Advance) && StoresTo(r.threads[t], held, i, obj, assign, got)
    ensures got.None? ==> i < |r.values| && r'.values == r.values[i := obj]
    ensures got.Some? ==> r'.values == r.values
    ensures got.None? ==> r'.threads[t].pc == Outcome(r.values[i], assign)
    ensures StoresTo(r'.threads[t], held, i, obj, assign, if got.None? then Some(r.values[i]) else got)
  {
  }

  /** At `m` the thread exchanged `obj` for `got`. */
  ghost predicate ExchangedAt(run: seq<LockState>, trace: Trace, t: nat, a: nat, k: nat, i: nat, obj: Ptr, assign: bool,
                              got: Option<Ptr>, m: nat)
    requires k < |run| == |trace| + 1
  {
    got.Some? ==>
      && a < m < k && trace[m].t == t && i < |Values(run[m])| && got.value == Values(run[m])[i]
      && Values(run[m + 1]) == Values(run[m])[i := obj]
      && t < |run[m + 1].threads| && AbsThread(run[m + 1].threads[t]).pc == Outcome(got.value, assign)
  }

  lemma {:induction false} StoresUntil(run: seq<LockState>, trace: Trace, t: nat, a: nat, i: nat, obj: Ptr, assign: bool, k: nat)
      returns (got: Option<Ptr>, m: nat)
    requires LockTrace(run, trace) && a < k < |run| == |trace| + 1 && t < |run[a].threads|
    requires trace[a] == Move(t, if assign then Event.CallAssign(i, obj) else Event.CallMove(i, obj))
    requires forall j :: a < j < k ==> t < |run[j].threads| && !run[j].threads[t].pc.Idle?
    ensures t < |run[k].threads|
    ensures StoresTo(AbsThread(run[k].threads[t]), Kept(run[a].threads[t].held, obj, assign), i, obj, assign, got)
    ensures obj != NULL ==> obj in run[a].threads[t].held
    ensures ExchangedAt(run, trace, t, a, k, i, obj, assign, got, m)
    ensures OnlyStoresAt(run, trace, t, a, k, if got.Some? then m else k)
    decreases k
  {
    hide LockTrace, StoresTo, AbsThread, RegStep, Values, Abs, AbsPc, Kept, CallSpans, Outcome;
    if k == a + 1 {
      CallMove(run, trace, t, a);
      CalledStores(run[a], run[a + 1], t, i, obj, assign);
      got, m := None, a;
    } else {
      got, m := StoresUntil(run, trace, t, a, i, obj, assign, k - 1);
      if trace[k - 1].t == t {
        var value, exchanged := StoreMove(run, trace, t, k - 1, Kept(run[a].threads[t].held, obj, assign), i, obj, assign, got);
        if exchanged {
          m := k - 1;
        }
        got := value;
      } else {
        OthersMove(run, trace, t, k - 1);
      }
    }
  }

  /** One own move of a storing thread. */
  lemma StoreMove(run: seq<LockState>, trace: Trace, t: nat, k: nat, held: multiset<Ptr>, i: nat, obj: Ptr, assign: bool,
                  got: Option<Ptr>) returns (got': Option<Ptr>, exchanged: bool)
    requires LockTrace(run, trace) && k < |trace| == |run| - 1 && trace[k].t == t && t < |run[k].threads|
    requires !run[k].threads[t].pc.Idle? && StoresTo(AbsThread(run[k].threads[t]), held, i, obj, assign, got)
    ensures t < |run[k + 1].threads| && StoresTo(AbsThread(run[k + 1].threads[t]), held, i, obj, assign, got')
    ensures if exchanged then
              && got.None? && got'.Some? && i < |Values(run[k])| && got'.value == Values(run[k])[i]
              && Values(run[k + 1]) == Values(run[k])[i := obj]
              && AbsThread(run[k + 1].threads[t]).pc == Outcome(got'.value, assign)
            else got' == got && Values(run[k + 1]) == Values(run[k])
  {
    hide LockTrace, StoresTo, AbsThread, RegStep, Values, Abs, AbsPc;
    OwnMove(run, trace, t, k);
    ValuesAre(run[k]);
    ValuesAre(run[k + 1]);
    got', exchanged := got, false;
    if Abs(run[k + 1]) != Abs(run[k]) {
      StoreStep(Abs(run[k]), Abs(run[k + 1]), t, held, i, obj, assign, got);
      if got.None? {
        got', exchanged := Some(Values(run[k])[i]), true;
      }
    }
  }

  /** What the caller owns during a store: an assign duplicates its reference, a move hands it over. */
  function Kept(held: multiset<Ptr>, obj: Ptr, assign: bool): multiset<Ptr> {
    if assign then held else held - One(obj)
  }

  lemma CalledStores(s: LockState, s': LockState, t: nat, i: nat, obj: Ptr, assign: bool)
    requires t < |s.threads| && t < |s'.threads|
    requires OwnerStep(Abs(s), AbsThread(s.threads[t]), AbsThread(s'.threads[t]),
                       if assign then Event.CallAssign(i, obj) else Event.CallMove(i, obj))
    ensures StoresTo(AbsThread(s'.threads[t]), Kept(s.threads[t].held, obj, assign), i, obj, assign, None)
    ensures obj != NULL ==> obj in s.threads[t].held
  {
  }

  // ---- giving the previous object up ----

  lemma GivesUp(run: seq<LockState>, trace: Trace, t: nat, k: nat, p: Ptr)
    requires LockTrace(run, trace) && k < |trace| && trace[k].t == t && t < |run[k].threads|
    requires AbsThread(run[k].threads[t]).pc == Releasing(p)
    ensures t < |run[k + 1].threads|
    ensures AbsThread(run[k + 1].threads[t]).pc == Releasing(p) || DecrementedAt(run, k, p)
  {
    InvOnTrace(run, trace, k);
    assert LockMoves(run[k], trace[k], run[k + 1]);
    SameThreads(run[k], trace[k], run[k + 1]);
    assert PcOk(run[k], run[k].threads[t].pc);
    hide Inv, AtomicRef.CallObjects, AtomicRef.Called;
  }

  ghost predicate DecrementedAt<W>(run: seq<State<W>>, k: nat, p: Ptr)
    requires k + 1 < |run|
  {
    p in run[k].objects && p in run[k + 1].objects && run[k + 1].objects[p] == run[k].objects[p] - 1
  }

  lemma {:induction false} GivenUpBy(run: seq<LockState>, trace: Trace, t: nat, lo: nat, hi: nat, p: Ptr) returns (d: nat)
    requires LockTrace(run, trace) && lo < hi < |run| == |trace| + 1 && t < |run[lo].threads|
    requires AbsThread(run[lo].threads[t]).pc == Releasing(p)
    requires t < |run[hi].threads| && run[hi].threads[t].pc.Idle?
    ensures lo <= d < hi && trace[d].t == t && DecrementedAt(run, d, p)
    decreases hi - lo
  {
    hide LockTrace, AbsThread, DecrementedAt;
    if trace[lo].t == t {
      GivesUp(run, trace, t, lo, p);
      if DecrementedAt(run, lo, p) {
        return lo;
      }
    } else {
      OthersMove(run, trace, t, lo);
    }
    if lo + 1 == hi {
      IdleIsReady(run[hi].threads[t]);
    } else {
      d := GivenUpBy(run, trace, t, lo + 1, hi, p);
    }
  }

  lemma IdleIsReady(th: AtomicRef.Thread<Lock>)
    requires th.pc.Idle?
    ensures AbsThread(th) == RegThread(Ready, th.held)
  {
  }

  /** What everyone sees of a state: the objects in the slots and the objects' counts. */
  datatype Scene = Scene(slots: seq<Ptr>, counts: map<Ptr, int>)

  function LockScenes(run: seq<LockState>): seq<Scene> {
    seq(|run|, k requires 0 <= k < |run| => Scene(Values(run[k]), run[k].objects))
  }

  /**
   A store between `a` and `b`: at one moment `m` thread `t` exchanges the object in its slot, and it
   changes no slot at any other. A move takes the caller's reference and hands the previous object's
   over; an assign leaves the caller's references alone and gives the previous object's up.
   */
  ghost predicate Exchanges(scenes: seq<Scene>, trace: Trace, t: nat, a: nat, b: nat, m: nat,
                            before: multiset<Ptr>, after: multiset<Ptr>)
    requires a < b < |scenes| == |trace| + 1 && (trace[a].e.CallAssign? || trace[a].e.CallMove?)
  {
    var i, obj := trace[a].e.slot, trace[a].e.obj;
    && (obj != NULL ==> obj in before)
    && a < m < b && trace[m].t == t && i < |scenes[m].slots| && scenes[m + 1].slots == scenes[m].slots[i := obj]
    && (forall k :: a <= k < b && trace[k].t == t && k != m ==> scenes[k + 1].slots == scenes[k].slots)
    && var previous := scenes[m].slots[i];
      if trace[a].e.CallMove? then after == before - One(obj) + One(previous)
      else
        && after == before
        && (previous != NULL ==> exists d :: m < d < b && trace[d].t == t && Decrements(scenes[d], scenes[d + 1], previous))
  }

  ghost predicate Decrements(s: Scene, s': Scene, p: Ptr) {
    p in s.counts && p in s'.counts && s'.counts[p] == s.counts[p] - 1
  }

  /** A thread whose store has ended owns what the store leaves it. */
  lemma StoreEnds(th: AtomicRef.Thread<Lock>, held: multiset<Ptr>, i: nat, obj: Ptr, assign: bool, got: Option<Ptr>)
    requires th.pc.Idle? && StoresTo(AbsThread(th), held, i, obj, assign, got)
    ensures got.Some? && th.held == StoreLeaves(held, assign, got.value)
  {
  }

  lemma LockStoreExchanges(run: seq<LockState>, trace: Trace, t: nat, a: nat, b: nat) returns (m: nat)
    requires LockTrace(run, trace) && CallSpans(run, trace, t, a, b) && (trace[a].e.CallAssign? || trace[a].e.CallMove?)
    ensures Exchanges(LockScenes(run), trace, t, a, b, m, run[a].threads[t].held, run[b].threads[t].held)
  {
    var i, obj, assign := trace[a].e.slot, trace[a].e.obj, trace[a].e.CallAssign?;
    hide LockTrace, Values, DecrementedAt, StoresTo, AbsThread, One, Exchanges, Outcome;
    var got;
    got, m := StoresUntil(run, trace, t, a, i, obj, assign, b);
    StoreEnds(run[b].threads[t], Kept(run[a].threads[t].held, obj, assign), i, obj, assign, got);
    var d := m;
    if assign && got.value != NULL {
      OutcomeReleases(got.value);
      d := GivenUpBy(run, trace, t, m + 1, b, got.value);
    }
    hide ExchangedAt, OnlyStoresAt;
    ScenesExchange(run, trace, t, a, b, got, m, d);
  }

  lemma OutcomeReleases(p: Ptr)
    requires p != NULL
    ensures Outcome(p, true) == Releasing(p)
  {
  }

  lemma ScenesExchange(run: seq<LockState>, trace: Trace, t: nat, a: nat, b: nat, got: Option<Ptr>, m: nat, d: nat)
    requires CallSpans(run, trace, t, a, b) && (trace[a].e.CallAssign? || trace[a].e.CallMove?) && got.Some?
    requires ExchangedAt(run, trace, t, a, b, trace[a].e.slot, trace[a].e.obj, trace[a].e.CallAssign?, got, m)
    requires OnlyStoresAt(run, trace, t, a, b, m)
    requires trace[a].e.obj != NULL ==> trace[a].e.obj in run[a].threads[t].held
    requires run[b].threads[t].held == StoreLeaves(Kept(run[a].threads[t].held, trace[a].e.obj, trace[a].e.CallAssign?),
                                                   trace[a].e.CallAssign?, got.value)
    requires trace[a].e.CallAssign? && got.value != NULL ==> m < d < b && trace[d].t == t && DecrementedAt(run, d, got.value)
    ensures Exchanges(LockScenes(run), trace, t, a, b, m, run[a].threads[t].held, run[b].threads[t].held)
  {
    hide Values, One, AbsThread, Outcome;
    if trace[a].e.CallAssign? && got.value != NULL {
      DecrementsScene(run, d, got.value);
    }
  }

  lemma DecrementsScene(run: seq<LockState>, d: nat, p: Ptr)
    requires d + 1 < |run| && DecrementedAt(run, d, p)
    ensures Decrements(LockScenes(run)[d], LockScenes(run)[d + 1], p)
  {
  }

  // ---- the same on machine words ----

  ghost predicate BitTrace(run: seq<Bits.BitState>, trace: Trace) {
    IsTrace(run, trace, Bits.BitInit, Bits.BitMoves)
  }

  function ObjectIn(w: Bits.Word): Ptr {
    Ptr(w & OBJECT_MASK)
  }

  /** The objects in the slots. */
  function Objects(s: Bits.BitState): seq<Ptr> {
    seq(|s.words|, i requires 0 <= i < |s.words| => ObjectIn(s.words[i]))
  }

  lemma LiftViews(s: Bits.BitState)
    ensures Values(Bits.Lift(s)) == Objects(s) && Bits.Lift(s).objects == s.objects
    ensures |Bits.Lift(s).threads| == |s.threads|
    ensures forall t :: 0 <= t < |s.threads| ==>
      && Bits.Lift(s).threads[t].held == s.threads[t].held
      && (Bits.Lift(s).threads[t].pc.Idle? <==> s.threads[t].pc.Idle?)
  {
    assert |Values(Bits.Lift(s))| == |Objects(s)|;
    assert forall i :: 0 <= i < |s.words| ==> Values(Bits.Lift(s))[i] == Objects(s)[i];
  }

  lemma LiftSpans(run: seq<Bits.BitState>, trace: Trace, t: nat, a: nat, b: nat)
    requires BitTrace(run, trace) && CallSpans(run, trace, t, a, b)
    ensures LockTrace(Bits.LiftRun(run), trace) && CallSpans(Bits.LiftRun(run), trace, t, a, b)
  {
    Bits.TraceRefines(run, trace);
    hide Bits.Lift;
    forall k | 0 <= k < |run| ensures |Bits.LiftRun(run)[k].threads| == |run[k].threads| {
      LiftViews(run[k]);
    }
    forall k | a < k <= b ensures Bits.LiftRun(run)[k].threads[t].pc.Idle? <==> run[k].threads[t].pc.Idle? {
      LiftViews(run[k]);
    }
  }

  /**
   A reference: between the call and its return, the thread changes no slot, and it ends up owning
   one reference more, to the object its slot held at one moment `m` in between; none for NULL.
   */
  lemma ReferenceReturns(run: seq<Bits.BitState>, trace: Trace, t: nat, a: nat, b: nat) returns (m: nat)
    requires BitTrace(run, trace) && CallSpans(run, trace, t, a, b) && trace[a].e.CallReference?
    ensures a < m < b && trace[a].e.slot < |run[m].words|
    ensures run[b].threads[t].held == run[a].threads[t].held + One(ObjectIn(run[m].words[trace[a].e.slot]))
    ensures forall k :: a <= k < b && trace[k].t == t ==> Objects(run[k + 1]) == Objects(run[k])
  {
    var i, lifted := trace[a].e.slot, Bits.LiftRun(run);
    LiftSpans(run, trace, t, a, b);
    hide BitTrace, LockTrace, Bits.Lift, Objects, Values, Bits.LiftRun;
    var got;
    got, m := LoadsUntil(lifted, trace, t, a, i, b);
    IdleIsReady(lifted[b].threads[t]);
    hide AbsThread;
    forall k | 0 <= k < |run| ensures Values(lifted[k]) == Objects(run[k]) { LiftViews(run[k]); }
    LiftViews(run[a]);
    LiftViews(run[b]);
    ObjectsAt(run[m], i);
  }

  lemma ObjectsAt(s: Bits.BitState, i: nat)
    requires i < |Objects(s)|
    ensures i < |s.words| && Objects(s)[i] == ObjectIn(s.words[i])
  {
  }

  function Scenes(run: seq<Bits.BitState>): seq<Scene> {
    seq(|run|, k requires 0 <= k < |run| => Scene(Objects(run[k]), run[k].objects))
  }

  lemma LiftScenes(run: seq<Bits.BitState>)
    ensures LockScenes(Bits.LiftRun(run)) == Scenes(run)
  {
    hide Bits.Lift, Values, Objects;
    forall k | 0 <= k < |run| ensures LockScenes(Bits.LiftRun(run))[k] == Scenes(run)[k] { LiftViews(run[k]); }
  }

  /** A store of a reference the caller owns, or of NULL, exchanges exactly once and settles who owns what. */
  lemma StoreExchanges(run: seq<Bits.BitState>, trace: Trace, t: nat, a: nat, b: nat) returns (m: nat)
    requires BitTrace(run, trace) && CallSpans(run, trace, t, a, b) && (trace[a].e.CallAssign? || trace[a].e.CallMove?)
    ensures Exchanges(Scenes(run), trace, t, a, b, m, run[a].threads[t].held, run[b].threads[t].held)
  {
    LiftSpans(run, trace, t, a, b);
    LiftScenes(run);
    hide BitTrace, LockTrace, Bits.Lift, Exchanges;
    m := LockStoreExchanges(Bits.LiftRun(run), trace, t, a, b);
    LiftViews(run[a]);
    LiftViews(run[b]);
  }

  // ---- a call that nobody disturbs returns ----

  /** No other thread is in the slot thread `t` works on. */
  ghost predicate Alone(s: LockState, t: nat)
    requires t < |s.threads|
  {
    var pc := s.threads[t].pc;
    pc.OnSlot() || pc.SharedReference? ==>
      forall u: nat :: u < |s.threads| && u != t ==> ReaderOf(pc.slot, s.threads[u]) == WriterOf(pc.slot, s.threads[u]) == 0
  }

  /** The moves a thread alone in its slot still has to make, the slot's word being `w`. */
  function MovesLeft(pc: LockPc, w: Lock): nat {
    match pc
    case Idle => 0
    case SharedRead(_) => 6
    case SharedCas(_, seen) => if seen == w then 5 else 7
    case SharedHeld(_) => 4
    case SharedReference(_, _) => 3
    case SharedRelease(_, _) => 2
    case ExclusiveRead(_, _, _) => 9
    case ExclusiveCas(_, seen, _, _) => if seen == w then 8 else 10
    case ExclusiveDrain(_, seen, _, _) => if seen.shared != 0 then 7 else 6
    case ExclusiveHeld(_, _, _) => 5
    case ExclusiveStore(_, _, _, _) => 4
    case ExclusiveRelease(_, _, _) => 3
    case Dereferencing(_) => 2
    case Returned(_) => 1
    case Deleting(_) => 1
  }

  function Left(s: LockState, t: nat): nat
    requires t < |s.threads|
  {
    var pc := s.threads[t].pc;
    MovesLeft(pc, if (pc.OnSlot() || pc.SharedReference?) && pc.slot < |s.words| then s.words[pc.slot] else Lock(NULL, false, 0))
  }

  /** Alone, a thread sees in the word nobody but itself. */
  lemma AloneInWord(s: LockState, t: nat)
    requires Inv(s) && t < |s.threads| && Alone(s, t) && s.threads[t].pc.OnSlot()
    ensures
      var pc := s.threads[t].pc;
      && pc.slot < |s.words| && PcFits(pc, s.words[pc.slot])
      && s.words[pc.slot].shared == ReaderOf(pc.slot, s.threads[t])
      && s.words[pc.slot].exclusive == (WriterOf(pc.slot, s.threads[t]) == 1)
  {
    var pc := s.threads[t].pc;
    assert PcOk(s, pc) && SlotOk(s, pc.slot);
    OnlyOne(s.threads, t, ReaderOf, pc.slot);
    OnlyOne(s.threads, t, WriterOf, pc.slot);
  }

  lemma OnlyOne(ths: seq<AtomicRef.Thread<Lock>>, t: nat, weight: (nat, AtomicRef.Thread<Lock>) -> nat, k: nat)
    requires t < |ths| && forall u: nat :: u < |ths| && u != t ==> weight(k, ths[u]) == 0
    ensures Total(ths, weight, k) == weight(k, ths[t])
  {
    var before, after := ths[..t], ths[t..];
    TotalZero(before, weight, k);
    TotalZero(after[1..], weight, k);
    TotalAppend(before, after, weight, k);
    assert ths == before + after;
  }

  /** Where a thread alone goes next on its slot. */
  lemma SlotMoveLeaves(pc: LockPc, w: Lock)
    requires pc.OnSlot() && PcFits(pc, w) && Aligned(w.obj)
    requires (pc.SharedHeld? || pc.SharedRelease?) <==> w.shared == 1
    requires !pc.SharedHeld? && !pc.SharedRelease? ==> w.shared == 0
    requires w.exclusive <==> pc.ExclusiveDrain? || pc.ExclusiveHeld? || pc.ExclusiveStore? || pc.ExclusiveRelease?
    ensures
      var local := LockStep(pc, w);
      && MovesLeft(local.pc, local.word) < MovesLeft(pc, w)
      && (local.pc.OnSlot() || local.pc.SharedReference? ==> local.pc.slot == pc.slot)
      && (!local.pc.OnSlot() && !local.pc.SharedReference? ==>
            MovesLeft(local.pc, Lock(NULL, false, 0)) == MovesLeft(local.pc, local.word))
  {
  }

  lemma SlotLeaves(s: LockState, t: nat)
    requires Inv(s) && t < |s.threads| && s.threads[t].pc.OnSlot() && Alone(s, t)
    ensures s.threads[t].pc.slot < |s.words| && Alone(SlotPost(s, t), t) && Left(SlotPost(s, t), t) < Left(s, t)
  {
    var pc := s.threads[t].pc;
    AloneInWord(s, t);
    assert SlotOk(s, pc.slot);
    hide Inv, SlotOk, LockStep, PcFits, MovesLeft;
    SlotMoveLeaves(pc, s.words[pc.slot]);
  }

  lemma OffSlotLeaves(s: LockState, s': LockState, t: nat)
    requires Inv(s) && LockMoves(s, Move(t, Advance), s') && !s.threads[t].pc.OnSlot() && Alone(s, t)
    ensures t < |s'.threads| && Alone(s', t) && Left(s', t) < Left(s, t)
  {
    hide Inv, LockStep, AtomicRef.CallPost, One;
  }

  /** On machine words: alone in its slot, a thread inside a call always has a move, and it is nearer its return after it. */
  lemma AloneAdvances(s: Bits.BitState, t: nat) returns (s': Bits.BitState)
    requires Bits.BitInv(s) && t < |s.threads| && !s.threads[t].pc.Idle? && Alone(Bits.Lift(s), t)
    ensures Bits.BitMoves(s, Move(t, Advance), s') && Bits.BitInv(s')
    ensures t < |s'.threads| && Alone(Bits.Lift(s'), t) && Left(Bits.Lift(s'), t) < Left(Bits.Lift(s), t)
  {
    var l := Bits.Lift(s);
    InvAsserts(l, t);
    EnabledOnWords(s, t);
    s' := AtomicRef.Post(Bits.BitStep, s, t, Advance);
    Bits.MoveRefines(s, Move(t, Advance), s');
    SameThreads(l, Move(t, Advance), Bits.Lift(s'));
    if l.threads[t].pc.OnSlot() {
      SlotLeaves(l, t);
      assert Bits.Lift(s') == SlotPost(l, t);
    } else {
      OffSlotLeaves(l, Bits.Lift(s'), t);
    }
  }

  lemma EnabledOnWords(s: Bits.BitState, t: nat)
    requires t < |s.threads| && AtomicRef.Enabled(Bits.Lift(s), t, Advance)
    ensures AtomicRef.Enabled(s, t, Advance)
  {
  }

  /** So it returns, after at most ten moves. */
  lemma AloneReturns(s: Bits.BitState, t: nat) returns (run: seq<Bits.BitState>)
    requires Bits.BitInv(s) && t < |s.threads| && Alone(Bits.Lift(s), t)
    ensures 0 < |run| <= 11 && run[0] == s && forall k :: 0 <= k < |run| - 1 ==> Bits.BitMoves(run[k], Move(t, Advance), run[k + 1])
    ensures var last := run[|run| - 1]; t < |last.threads| && last.threads[t].pc.Idle?
  {
    run := ReturnsWithin(s, t);
  }

  lemma {:induction false} ReturnsWithin(s: Bits.BitState, t: nat) returns (run: seq<Bits.BitState>)
    requires Bits.BitInv(s) && t < |s.threads| && Alone(Bits.Lift(s), t)
    ensures 0 < |run| <= Left(Bits.Lift(s), t) + 1 && run[0] == s
    ensures forall k :: 0 <= k < |run| - 1 ==> Bits.BitMoves(run[k], Move(t, Advance), run[k + 1])
    ensures var last := run[|run| - 1]; t < |last.threads| && last.threads[t].pc.Idle?
    decreases Left(Bits.Lift(s), t)
  {
    hide Bits.BitInv, Bits.BitMoves, Alone, Left;
    if s.threads[t].pc.Idle? {
      return [s];
    }
    var s' := AloneAdvances(s, t);
    var rest := ReturnsWithin(s', t);
    run := [s] + rest;
    assert forall k :: 0 <= k < |rest| ==> run[k + 1] == rest[k];
  }

  /** An idle thread can make any call on references it owns. */
  lemma CallsAreOpen(s: LockState, t: nat, i: nat, obj: Ptr)
    requires Inv(s) && t < |s.threads| && s.threads[t].pc.Idle? && i < |s.words|
    ensures AtomicRef.Enabled(s, t, CallReference(i))
    ensures obj == NULL || obj in s.threads[t].held ==>
      AtomicRef.Enabled(s, t, Event.CallAssign(i, obj)) && AtomicRef.Enabled(s, t, Event.CallMove(i, obj))
    ensures obj in s.threads[t].held ==> AtomicRef.Enabled(s, t, Event.AddReference(obj)) && AtomicRef.Enabled(s, t, Event.Drop(obj))
  {
    if obj in s.threads[t].held {
      assert s.threads[t].held[NULL] == 0;
      OwnedIsLive(s, t, obj);
    }
  }
}
