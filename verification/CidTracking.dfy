/**
 Tracked process and thread contexts: the CID table's entries, each process's thread list and
 initial thread, each thread's back pointer to its process, and the references all of these hold.
 One call is one step; the table is the flat array CidShape proves it to be.
 */
module CidTracking {
  import opened Basics

  /** A context's address; 0 is NULL. */
  type Ctx = nat

  const CID_MAX: nat := 0x100_0000

  datatype Context =
    | Process(id: nat, count: int, threads: seq<Ctx>, number: int, unlinked: nat, initial: Ctx)
    | Thread(id: nat, count: int, process: Ctx, inList: bool)

  datatype Kind = ProcessKind | ThreadKind

  function KindOf(x: Context): Kind {
    if x.Process? then ProcessKind else ThreadKind
  }

  /**
   `outside` are the references owned by callers and queued APCs, `systemHeld` whether the pointer
   to the System process's context still owns one, `deferred` the contexts awaiting deletion.
   */
  datatype State = State(
    table: map<nat, Ctx>,
    contexts: map<Ctx, Context>,
    system: Ctx,
    systemHeld: bool,
    deferred: set<Ctx>,
    next: Ctx,
    outside: multiset<Ctx>,
    deleted: seq<Ctx>)

  // ---- who references a context ----

  ghost predicate Tracked(s: State, c: Ctx) {
    c in s.contexts && s.contexts[c].id in s.table && s.table[s.contexts[c].id] == c
  }

  /** The threads whose back pointer names `p`. */
  function Backs(contexts: map<Ctx, Context>, p: Ctx): set<Ctx> {
    set t | t in contexts && contexts[t].Thread? && contexts[t].process == p
  }

  ghost predicate IsInitial(s: State, t: Ctx)
    requires t in s.contexts && s.contexts[t].Thread?
  {
    var p := s.contexts[t].process;
    p in s.contexts && s.contexts[p].Process? && s.contexts[p].initial == t
  }

  function One(b: bool): nat {
    if b then 1 else 0
  }

  ghost function References(s: State, c: Ctx): nat
    requires c in s.contexts
  {
    One(Tracked(s, c)) + s.outside[c]
    + match s.contexts[c]
      case Process(_, _, _, _, _, _) => |Backs(s.contexts, c)| + One(s.systemHeld && s.system == c)
      case Thread(_, _, _, inList) => One(inList) + One(IsInitial(s, c))
  }

  // ---- invariant ----

  ghost predicate ThreadOk(s: State, t: Ctx)
    requires t in s.contexts && s.contexts[t].Thread?
  {
    var x := s.contexts[t];
    && (x.process != 0 ==> x.process in s.contexts && s.contexts[x.process].Process?)
    && (x.inList ==> x.process != 0 && t in s.contexts[x.process].threads)
  }

  ghost predicate IsThreadOf(s: State, t: Ctx, p: Ctx) {
    t in s.contexts && s.contexts[t].Thread? && s.contexts[t].process == p
  }

  ghost predicate ProcessOk(s: State, p: Ctx)
    requires p in s.contexts && s.contexts[p].Process?
  {
    var x := s.contexts[p];
    && x.number == |x.threads| && Distinct(x.threads)
    && (forall t :: t in x.threads ==> IsThreadOf(s, t, p) && s.contexts[t].inList)
    && (x.initial != 0 ==> IsThreadOf(s, x.initial, p))
  }

  ghost predicate Linked(s: State) {
    && (forall c :: c in s.contexts && s.contexts[c].Thread? ==> ThreadOk(s, c))
    && (forall c :: c in s.contexts && s.contexts[c].Process? ==> ProcessOk(s, c))
    && (forall id :: id in s.table ==> id < CID_MAX && s.table[id] in s.contexts && s.contexts[s.table[id]].id == id)
    && (s.systemHeld ==> s.system in s.contexts && s.contexts[s.system].Process?)
  }

  /** Every count is the number of references there are; a context awaits deletion exactly at zero. */
  ghost predicate Counted(s: State) {
    && (forall c :: c in s.contexts ==> s.contexts[c].count == References(s, c) && (c in s.deferred <==> s.contexts[c].count == 0))
    && (forall c :: c in s.deferred || c in s.outside ==> c in s.contexts)
  }

  /** Every context ever created either exists or was deleted, once. */
  ghost predicate Accounted(s: State) {
    && 0 < s.next && Distinct(s.deleted)
    && (forall c :: c in s.contexts || c in s.deleted <==> 0 < c < s.next)
    && (forall c :: c in s.deleted ==> c !in s.contexts)
  }

  ghost predicate Inv(s: State) {
    Linked(s) && Counted(s) && Accounted(s)
  }

  /** Only tracked contexts are linked, except that a call in progress may be linking or unlinking those in `x`. */
  ghost predicate SettledBut(s: State, x: set<Ctx>) {
    && (forall c :: c in s.contexts && c !in x && s.contexts[c].Thread? && (s.contexts[c].inList || IsInitial(s, c)) ==>
          Tracked(s, c))
    && (forall c :: c in s.contexts && c !in x && s.contexts[c].Process? && !Tracked(s, c) ==>
          s.contexts[c].threads == [] && s.contexts[c].initial == 0)
  }

  /** Between calls only tracked contexts are linked. */
  ghost predicate Settled(s: State) {
    SettledBut(s, {})
  }

  // ---- what the invariant gives ----

  lemma FirstIsMember(xs: seq<Ctx>)
    ensures xs == [] || xs[0] in xs
  {
  }

  lemma ListedIsBack(s: State, p: Ctx)
    requires Linked(s) && p in s.contexts && s.contexts[p].Process?
    ensures forall t :: t in s.contexts[p].threads ==> t in Backs(s.contexts, p)
  {
    assert ProcessOk(s, p);
    assert forall t :: IsThreadOf(s, t, p) ==> t in Backs(s.contexts, p);
  }

  /** A deleted thread is in no list; a deleted process has no thread. */
  lemma DeletedIsUnlinked(s: State, c: Ctx)
    requires Inv(s) && c in s.deferred
    ensures c in s.contexts && !Tracked(s, c) && s.outside[c] == 0
    ensures s.contexts[c].Thread? ==> !s.contexts[c].inList && !IsInitial(s, c)
    ensures s.contexts[c].Process? ==>
      s.contexts[c].threads == [] && s.contexts[c].number == 0 && Backs(s.contexts, c) == {}
  {
    if s.contexts[c].Process? {
      ListedIsBack(s, c);
      assert Backs(s.contexts, c) == {};
      FirstIsMember(s.contexts[c].threads);
    }
  }

  /**
   Despite the cycle of references between a process and its threads: once the deferred deletions
   have run, a context nobody outside references is still tracked, or is a process with a tracked thread.
   */
  lemma LiveIsTracked(s: State, c: Ctx)
    requires Inv(s) && Settled(s) && s.deferred == {}
    requires c in s.contexts && s.outside[c] == 0 && !(s.systemHeld && c == s.system)
    requires forall t :: t in s.contexts && s.contexts[t].Thread? && s.contexts[t].process == c ==> s.outside[t] == 0
    ensures Tracked(s, c) || (s.contexts[c].Process? && exists t :: IsThreadOf(s, t, c) && Tracked(s, t))
  {
    if !Tracked(s, c) {
      assert s.contexts[c].count > 0;
      var t :| t in Backs(s.contexts, c);
      assert IsThreadOf(s, t, c) && s.contexts[t].count > 0;
      assert Tracked(s, t);
    }
  }

  /** With nothing tracked and nothing held outside, no context outlives the deferred deletions. */
  lemma AllGone(s: State)
    requires Inv(s) && Settled(s) && s.deferred == {}
    requires s.table == map[] && s.outside == multiset{} && !s.systemHeld
    ensures s.contexts == map[] && Distinct(s.deleted) && forall c :: c in s.deleted <==> 0 < c < s.next
  {
    forall c | c in s.contexts ensures false {
      LiveIsTracked(s, c);
    }
  }

  // ---- reference moves ----

  /** A context's links, without its count. */
  function Links(x: Context): Context {
    x.(count := 0)
  }

  function AddCount(x: Context, delta: int): Context {
    x.(count := x.count + delta)
  }

  ghost predicate LinksKept(before: map<Ctx, Context>, after: map<Ctx, Context>) {
    before.Keys == after.Keys && forall c :: c in before ==> Links(after[c]) == Links(before[c])
  }

  /** The two states differ in counts, outside references and deferred deletions only. */
  ghost predicate SameLinks(s: State, s': State) {
    LinksKept(s.contexts, s'.contexts)
    && (s.table, s.system, s.systemHeld, s.next, s.deleted) == (s'.table, s'.system, s'.systemHeld, s'.next, s'.deleted)
  }

  lemma LinksKeepFacts(s: State, s': State)
    requires SameLinks(s, s')
    ensures forall p {:trigger Backs(s'.contexts, p)} :: Backs(s'.contexts, p) == Backs(s.contexts, p)
    ensures forall c :: Tracked(s', c) <==> Tracked(s, c)
    ensures forall t, p :: IsThreadOf(s', t, p) <==> IsThreadOf(s, t, p)
    ensures forall c :: c in s.contexts && s.contexts[c].Thread? ==> (IsInitial(s', c) <==> IsInitial(s, c))
  {
    assert forall c :: c in s.contexts ==> Links(s'.contexts[c]) == Links(s.contexts[c]);
    forall p ensures Backs(s'.contexts, p) == Backs(s.contexts, p) {
      assert forall t :: t in Backs(s'.contexts, p) <==> t in Backs(s.contexts, p);
    }
  }

  lemma LinksKeepReferences(s: State, s': State, c: Ctx)
    requires SameLinks(s, s') && c in s.contexts
    ensures References(s', c) + s.outside[c] == References(s, c) + s'.outside[c]
  {
    LinksKeepFacts(s, s');
    assert Links(s'.contexts[c]) == Links(s.contexts[c]);
    hide Backs, Tracked, IsInitial;
  }

  lemma LinksKeepLinked(s: State, s': State)
    requires SameLinks(s, s') && Linked(s)
    ensures Linked(s')
  {
    LinksKeepFacts(s, s');
    hide Backs, Tracked, IsInitial, IsThreadOf;
    forall c | c in s'.contexts
      ensures if s'.contexts[c].Thread? then ThreadOk(s', c) else ProcessOk(s', c)
    {
      assert Links(s'.contexts[c]) == Links(s.contexts[c]);
      if s.contexts[c].Thread? {
        assert ThreadOk(s, c);
        var p := s.contexts[c].process;
        assert p in s.contexts ==> Links(s'.contexts[p]) == Links(s.contexts[p]);
      } else {
        assert ProcessOk(s, c);
        forall t | IsThreadOf(s, t, c) ensures t in s.contexts ==> Links(s'.contexts[t]) == Links(s.contexts[t]) {
        }
      }
    }
    forall id | id in s'.table ensures s'.contexts[s'.table[id]].id == id {
      assert Links(s'.contexts[s.table[id]]) == Links(s.contexts[s.table[id]]);
    }
    assert s.systemHeld ==> Links(s'.contexts[s.system]) == Links(s.contexts[s.system]);
  }

  lemma LinksKeepSettled(s: State, s': State, x: set<Ctx>)
    requires SameLinks(s, s') && SettledBut(s, x)
    ensures SettledBut(s', x)
  {
    LinksKeepFacts(s, s');
    assert forall c :: c in s.contexts ==> Links(s'.contexts[c]) == Links(s.contexts[c]);
    hide Backs, Tracked, IsInitial;
  }

  /** One context's count and outside references change alike. */
  lemma CountMoves(s: State, s': State, c: Ctx, delta: int)
    requires Inv(s) && SameLinks(s, s') && c in s.contexts
    requires s'.contexts == s.contexts[c := AddCount(s.contexts[c], delta)]
    requires s'.outside[c] == s.outside[c] + delta && forall x :: x != c ==> s'.outside[x] == s.outside[x]
    requires s'.deferred == (if s.contexts[c].count + delta == 0 then s.deferred + {c} else s.deferred - {c})
    ensures Inv(s')
  {
    hide Linked, References, LinksKept;
    LinksKeepLinked(s, s');
    hide SameLinks;
    forall x | x in s.contexts ensures References(s', x) == s'.contexts[x].count {
      LinksKeepReferences(s, s', x);
    }
    assert forall x :: x in s'.outside ==> x == c || x in s.outside;
  }

  // ---- the two operations that change counts ----

  function Referenced(s: State, c: Ctx): State
    requires c in s.contexts
  {
    s.(contexts := s.contexts[c := AddCount(s.contexts[c], 1)], outside := s.outside + multiset{c})
  }

  function Dereferenced(s: State, c: Ctx): State
    requires c in s.contexts
  {
    var x := AddCount(s.contexts[c], -1);
    s.(contexts := s.contexts[c := x], outside := s.outside - multiset{c},
       deferred := if x.count == 0 then s.deferred + {c} else s.deferred)
  }

  /** A live context referenced and dereferenced again is as before. */
  lemma ThereAndBack(s: State, c: Ctx)
    requires c in s.contexts && s.contexts[c].count > 0
    ensures Dereferenced(Referenced(s, c), c) == s
  {
    assert AddCount(AddCount(s.contexts[c], 1), -1) == s.contexts[c];
  }

  lemma RemoveAndBack(s: State, id: nat)
    requires id in s.table && s.table[id] in s.contexts && s.contexts[s.table[id]].count > 0
    ensures Dereferenced(Removed(Referenced(s, s.table[id]), id), s.table[id]) == Removed(s, id)
  {
    var c := s.table[id];
    assert AddCount(AddCount(s.contexts[c], 1), -1) == s.contexts[c];
    assert s.outside + multiset{c} + multiset{c} - multiset{c} == s.outside + multiset{c};
  }

  lemma ReferenceKeeps(s: State, c: Ctx)
    requires Inv(s) && c in s.contexts && s.contexts[c].count > 0
    ensures Inv(Referenced(s, c)) && SameLinks(s, Referenced(s, c))
    ensures forall x :: SettledBut(s, x) ==> SettledBut(Referenced(s, c), x)
  {
    hide Linked, Accounted, References, SettledBut;
    CountMoves(s, Referenced(s, c), c, 1);
    forall x: set<Ctx> | SettledBut(s, x) ensures SettledBut(Referenced(s, c), x) {
      LinksKeepSettled(s, Referenced(s, c), x);
    }
  }

  /** The count a dereference finds is positive, and the context was not yet awaiting deletion. */
  lemma DereferenceKeeps(s: State, c: Ctx)
    requires Inv(s) && c in s.outside
    ensures c in s.contexts && s.contexts[c].count > 0 && c !in s.deferred
    ensures Inv(Dereferenced(s, c)) && SameLinks(s, Dereferenced(s, c))
    ensures forall x :: SettledBut(s, x) ==> SettledBut(Dereferenced(s, c), x)
  {
    hide Linked, Accounted, References, SettledBut;
    HeldIsLive(s, c);
    assert s.contexts[c].count != 1 ==> s.deferred == s.deferred - {c};
    CountMoves(s, Dereferenced(s, c), c, -1);
    forall x: set<Ctx> | SettledBut(s, x) ensures SettledBut(Dereferenced(s, c), x) {
      LinksKeepSettled(s, Dereferenced(s, c), x);
    }
  }

  lemma HeldIsLive(s: State, c: Ctx)
    requires Inv(s) && c in s.outside
    ensures c in s.contexts && s.contexts[c].count > 0 && c !in s.deferred
  {
  }

  // ---- the moves that change links and carry a reference along ----

  /** A caller's reference becomes the table's. */
  function Stored(s: State, id: nat, c: Ctx): State {
    s.(table := s.table[id := c], outside := s.outside - multiset{c})
  }

  /** The table's reference becomes the caller's. */
  function Removed(s: State, id: nat): State
    requires id in s.table
  {
    s.(table := s.table - {id}, outside := s.outside + multiset{s.table[id]})
  }

  function WithProcess(x: Context, p: Ctx): Context
    requires x.Thread?
  {
    x.(process := p)
  }

  function WithInList(x: Context, inList: bool): Context
    requires x.Thread?
  {
    x.(inList := inList)
  }

  function WithInitial(x: Context, t: Ctx): Context
    requires x.Process?
  {
    x.(initial := t)
  }

  /** `gone` counts a thread unlinked by its process's exit. */
  function WithThreads(x: Context, threads: seq<Ctx>, delta: int, gone: nat): Context
    requires x.Process?
  {
    x.(threads := threads, number := x.number + delta, unlinked := x.unlinked + gone)
  }

  /** A thread's back pointer takes over the caller's reference to the process. */
  function BackPointed(s: State, t: Ctx, p: Ctx): State
    requires t in s.contexts && s.contexts[t].Thread?
  {
    s.(contexts := s.contexts[t := WithProcess(s.contexts[t], p)], outside := s.outside - multiset{p})
  }

  /** The process's initial thread takes over a reference to the thread. */
  function InitialSet(s: State, p: Ctx, t: Ctx): State
    requires p in s.contexts && s.contexts[p].Process?
  {
    s.(contexts := s.contexts[p := WithInitial(s.contexts[p], t)], outside := s.outside - multiset{t})
  }

  function InitialCleared(s: State, p: Ctx): State
    requires p in s.contexts && s.contexts[p].Process?
  {
    s.(contexts := s.contexts[p := WithInitial(s.contexts[p], 0)],
       outside := s.outside + multiset{s.contexts[p].initial})
  }

  /** The tail of the thread list takes over a reference to the thread. */
  function Listed(s: State, p: Ctx, t: Ctx): State
    requires p in s.contexts && s.contexts[p].Process? && t in s.contexts && s.contexts[t].Thread?
  {
    s.(contexts := s.contexts[p := WithThreads(s.contexts[p], s.contexts[p].threads + [t], 1, 0)]
                             [t := WithInList(s.contexts[t], true)],
       outside := s.outside - multiset{t})
  }

  function Without(xs: seq<Ctx>, t: Ctx): seq<Ctx> {
    if xs == [] then [] else if xs[0] == t then xs[1..] else [xs[0]] + Without(xs[1..], t)
  }

  /** The list's reference to the thread becomes the caller's. */
  function Unlisted(s: State, p: Ctx, t: Ctx, gone: nat): State
    requires p in s.contexts && s.contexts[p].Process? && t in s.contexts && s.contexts[t].Thread?
  {
    s.(contexts := s.contexts[p := WithThreads(s.contexts[p], Without(s.contexts[p].threads, t), -1, gone)]
                             [t := WithInList(s.contexts[t], false)],
       outside := s.outside + multiset{t})
  }

  lemma {:induction false} WithoutOne(xs: seq<Ctx>, t: Ctx)
    requires Distinct(xs) && t in xs
    ensures |Without(xs, t)| == |xs| - 1 && Distinct(Without(xs, t))
    ensures forall x :: x in Without(xs, t) <==> x in xs && x != t
  {
    assert xs == [xs[0]] + xs[1..];
    if xs[0] == t {
    } else {
      WithoutOne(xs[1..], t);
      var rest := Without(xs[1..], t);
      forall i, j | 0 <= i < j < |rest| + 1 ensures ([xs[0]] + rest)[i] != ([xs[0]] + rest)[j] {
        assert rest[j - 1] in rest;
      }
    }
  }

  /** Taking a thread off a list leaves the others in their order. */
  lemma {:induction false} WithoutKeepsOrder(xs: seq<Ctx>, t: Ctx) returns (i: nat)
    requires t in xs
    ensures i < |xs| && xs[i] == t && t !in xs[..i] && Without(xs, t) == xs[..i] + xs[i + 1..]
  {
    if xs[0] == t {
      i := 0;
    } else {
      i := WithoutKeepsOrder(xs[1..], t);
      i := i + 1;
      assert xs[..i] == [xs[0]] + xs[1..][..i - 1];
    }
  }

  lemma BacksAgree(a: map<Ctx, Context>, b: map<Ctx, Context>)
    requires a.Keys == b.Keys
    requires forall t :: t in a ==> (a[t].Thread? <==> b[t].Thread?) && (a[t].Thread? ==> a[t].process == b[t].process)
    ensures forall p {:trigger Backs(b, p)} :: Backs(b, p) == Backs(a, p)
  {
    forall p ensures Backs(b, p) == Backs(a, p) {
      assert forall t :: t in Backs(b, p) <==> t in Backs(a, p);
    }
  }

  /** A move of one reference keeps the invariant if it keeps the links sound and every total. */
  lemma MoveKeeps(s: State, s': State)
    requires Inv(s) && Linked(s')
    requires s'.contexts.Keys == s.contexts.Keys && (s'.deferred, s'.next, s'.deleted) == (s.deferred, s.next, s.deleted)
    requires forall c :: c in s.contexts ==> s'.contexts[c].count == s.contexts[c].count
    requires forall c :: c in s.contexts ==> References(s', c) == References(s, c)
    requires forall c :: c in s'.outside ==> c in s.contexts
    ensures Inv(s')
  {
    hide Linked, References;
  }

  lemma StoredLinks(s: State, id: nat, c0: Ctx)
    requires Inv(s) && c0 in s.outside && s.contexts[c0].id == id && id < CID_MAX && id !in s.table
    ensures Linked(Stored(s, id, c0))
  {
    hide References;
  }

  lemma StoredRefs(s: State, id: nat, c0: Ctx, c: Ctx)
    requires Inv(s) && c0 in s.outside && s.contexts[c0].id == id && id < CID_MAX && id !in s.table
    requires c in s.contexts
    ensures References(Stored(s, id, c0), c) == References(s, c)
  {
    hide Backs;
  }

  lemma StoredKeeps(s: State, id: nat, c0: Ctx)
    requires Inv(s) && c0 in s.outside && s.contexts[c0].id == id && id < CID_MAX && id !in s.table
    ensures Inv(Stored(s, id, c0))
  {
    StoredLinks(s, id, c0);
    forall c | c in s.contexts ensures References(Stored(s, id, c0), c) == References(s, c) {
      StoredRefs(s, id, c0, c);
    }
    hide Linked, References;
    MoveKeeps(s, Stored(s, id, c0));
  }

  lemma RemovedLinks(s: State, id: nat)
    requires Inv(s) && id in s.table
    ensures Linked(Removed(s, id))
  {
    hide References;
  }

  lemma RemovedRefs(s: State, id: nat, c: Ctx)
    requires Inv(s) && id in s.table
    requires c in s.contexts
    ensures References(Removed(s, id), c) == References(s, c)
  {
    hide Backs;
  }

  lemma RemovedKeeps(s: State, id: nat)
    requires Inv(s) && id in s.table
    ensures Inv(Removed(s, id))
  {
    RemovedLinks(s, id);
    forall c | c in s.contexts ensures References(Removed(s, id), c) == References(s, c) {
      RemovedRefs(s, id, c);
    }
    hide Linked, References;
    MoveKeeps(s, Removed(s, id));
  }

  lemma InitialLinks(s: State, s': State, p: Ctx, t: Ctx)
    requires Linked(s) && p in s.contexts && s.contexts[p].Process? && (t != 0 ==> IsThreadOf(s, t, p))
    requires s'.contexts == s.contexts[p := WithInitial(s.contexts[p], t)]
    requires (s'.table, s'.system, s'.systemHeld) == (s.table, s.system, s.systemHeld)
    ensures Linked(s')
  {
    assert ProcessOk(s, p) && ProcessOk(s', p);
    forall c | c in s.contexts && c != p
      ensures if s.contexts[c].Process? then ProcessOk(s', c) else ThreadOk(s', c)
    {
      if s.contexts[c].Process? {
        assert ProcessOk(s, c);
      } else {
        assert ThreadOk(s, c);
      }
    }
  }

  lemma InitialSetLinks(s: State, p: Ctx, t: Ctx)
    requires Inv(s) && p in s.contexts && s.contexts[p].Process? && s.contexts[p].initial == 0
    requires t in s.outside && IsThreadOf(s, t, p)
    ensures Linked(InitialSet(s, p, t))
  {
    hide Linked, Counted, Accounted;
    InitialLinks(s, InitialSet(s, p, t), p, t);
  }

  lemma InitialSetRefs(s: State, p: Ctx, t: Ctx, c: Ctx)
    requires p in s.contexts && s.contexts[p].Process? && s.contexts[p].initial == 0 && 0 !in s.contexts
    requires t in s.outside && IsThreadOf(s, t, p)
    requires c in s.contexts
    ensures References(InitialSet(s, p, t), c) == References(s, c)
  {
    BacksAgree(s.contexts, InitialSet(s, p, t).contexts);
    hide Backs;
  }

  lemma InitialSetKeeps(s: State, p: Ctx, t: Ctx)
    requires Inv(s) && p in s.contexts && s.contexts[p].Process? && s.contexts[p].initial == 0
    requires t in s.outside && IsThreadOf(s, t, p)
    ensures Inv(InitialSet(s, p, t))
  {
    NoNull(s);
    InitialSetLinks(s, p, t);
    forall c | c in s.contexts ensures References(InitialSet(s, p, t), c) == References(s, c) {
      InitialSetRefs(s, p, t, c);
    }
    hide Linked, References;
    MoveKeeps(s, InitialSet(s, p, t));
  }

  lemma InitialClearedLinks(s: State, p: Ctx)
    requires Inv(s) && p in s.contexts && s.contexts[p].Process? && s.contexts[p].initial != 0
    ensures Linked(InitialCleared(s, p))
  {
    hide Linked, Counted, Accounted;
    InitialLinks(s, InitialCleared(s, p), p, 0);
  }

  lemma InitialClearedRefs(s: State, p: Ctx, c: Ctx)
    requires p in s.contexts && s.contexts[p].Process? && s.contexts[p].initial != 0 && 0 !in s.contexts
    requires IsThreadOf(s, s.contexts[p].initial, p)
    requires c in s.contexts
    ensures References(InitialCleared(s, p), c) == References(s, c)
  {
    BacksAgree(s.contexts, InitialCleared(s, p).contexts);
    hide Backs;
  }

  lemma InitialClearedKeeps(s: State, p: Ctx)
    requires Inv(s) && p in s.contexts && s.contexts[p].Process? && s.contexts[p].initial != 0
    ensures Inv(InitialCleared(s, p))
  {
    NoNull(s);
    InitialIsThread(s, p);
    InitialClearedLinks(s, p);
    forall c | c in s.contexts ensures References(InitialCleared(s, p), c) == References(s, c) {
      InitialClearedRefs(s, p, c);
    }
    hide Linked, References;
    MoveKeeps(s, InitialCleared(s, p));
  }

  lemma ListedOwn(s: State, p: Ctx, t: Ctx)
    requires p in s.contexts && s.contexts[p].Process? && p != 0 && IsThreadOf(s, t, p) && !s.contexts[t].inList
    requires ProcessOk(s, p) && ThreadOk(s, t)
    ensures ProcessOk(Listed(s, p, t), p) && ThreadOk(Listed(s, p, t), t)
    ensures forall c :: c in s.contexts[p].threads ==> c in Listed(s, p, t).contexts[p].threads
  {
    assert Listed(s, p, t).contexts[p].threads[|s.contexts[p].threads|] == t;
  }

  lemma ListedLinks(s: State, p: Ctx, t: Ctx)
    requires Linked(s) && p in s.contexts && s.contexts[p].Process? && p != 0
    requires IsThreadOf(s, t, p) && !s.contexts[t].inList
    ensures Linked(Listed(s, p, t))
  {
    var s' := Listed(s, p, t);
    ListedOwn(s, p, t);
    OthersKept(s, s', p, t);
    hide ProcessOk, ThreadOk;
  }

  lemma OthersKept(s: State, s': State, p: Ctx, t: Ctx)
    requires Linked(s) && p in s.contexts && s.contexts[p].Process? && IsThreadOf(s, t, p) && p != t
    requires p in s'.contexts && s'.contexts[p].Process? && IsThreadOf(s', t, p)
    requires s'.contexts == s.contexts[p := s'.contexts[p]][t := s'.contexts[t]]
    requires forall c :: c in s.contexts[p].threads && c != t ==> c in s'.contexts[p].threads
    ensures forall c :: c in s.contexts && c != p && c != t ==>
      if s.contexts[c].Process? then ProcessOk(s', c) else ThreadOk(s', c)
  {
    forall c | c in s.contexts && c != p && c != t
      ensures if s.contexts[c].Process? then ProcessOk(s', c) else ThreadOk(s', c)
    {
      if s.contexts[c].Process? {
        assert ProcessOk(s, c);
      } else {
        assert ThreadOk(s, c);
      }
    }
  }

  lemma ListedRefs(s: State, p: Ctx, t: Ctx, c: Ctx)
    requires p in s.contexts && s.contexts[p].Process?
    requires t in s.outside && IsThreadOf(s, t, p) && !s.contexts[t].inList
    requires c in s.contexts
    ensures References(Listed(s, p, t), c) == References(s, c)
  {
    BacksAgree(s.contexts, Listed(s, p, t).contexts);
    hide Backs;
  }

  lemma ListedKeeps(s: State, p: Ctx, t: Ctx)
    requires Inv(s) && p in s.contexts && s.contexts[p].Process?
    requires t in s.outside && IsThreadOf(s, t, p) && !s.contexts[t].inList
    ensures Inv(Listed(s, p, t))
  {
    hide Linked, References;
    ListedLinks(s, p, t);
    forall c | c in s.contexts ensures References(Listed(s, p, t), c) == References(s, c) {
      ListedRefs(s, p, t, c);
    }
    MoveKeeps(s, Listed(s, p, t));
  }

  lemma UnlistedLinks(s: State, p: Ctx, t: Ctx, gone: nat)
    requires Linked(s) && p in s.contexts && s.contexts[p].Process?
    requires IsThreadOf(s, t, p) && s.contexts[t].inList
    ensures Linked(Unlisted(s, p, t, gone))
  {
    assert ThreadOk(s, t) && ProcessOk(s, p);
    WithoutOne(s.contexts[p].threads, t);
    hide Without;
    var s' := Unlisted(s, p, t, gone);
    assert ProcessOk(s', p) && ThreadOk(s', t);
    OthersKept(s, s', p, t);
  }

  lemma UnlistedRefs(s: State, p: Ctx, t: Ctx, gone: nat, c: Ctx)
    requires p in s.contexts && s.contexts[p].Process?
    requires IsThreadOf(s, t, p) && s.contexts[t].inList
    requires c in s.contexts
    ensures References(Unlisted(s, p, t, gone), c) == References(s, c)
  {
    BacksAgree(s.contexts, Unlisted(s, p, t, gone).contexts);
    hide Backs, Without;
  }

  lemma UnlistedKeeps(s: State, p: Ctx, t: Ctx, gone: nat)
    requires Inv(s) && p in s.contexts && s.contexts[p].Process?
    requires IsThreadOf(s, t, p) && s.contexts[t].inList
    ensures Inv(Unlisted(s, p, t, gone))
  {
    UnlistedLinks(s, p, t, gone);
    forall c | c in s.contexts ensures References(Unlisted(s, p, t, gone), c) == References(s, c) {
      UnlistedRefs(s, p, t, gone, c);
    }
    hide Linked, References;
    MoveKeeps(s, Unlisted(s, p, t, gone));
  }

  /** Nothing but the table, a caller or the System pointer names the context. */
  ghost predicate Nameless(s: State, c: Ctx) {
    && c != 0
    && (forall t :: t in s.contexts && s.contexts[t].Thread? ==> s.contexts[t].process != c)
    && (forall p :: p in s.contexts && s.contexts[p].Process? ==> s.contexts[p].initial != c && c !in s.contexts[p].threads)
  }

  /** A thread without a process is in no list and initial nowhere. */
  lemma UnlinkedThread(s: State, t: Ctx)
    requires Inv(s) && t in s.contexts && s.contexts[t].Thread? && s.contexts[t].process == 0
    ensures !s.contexts[t].inList && Nameless(s, t) && 0 !in s.contexts
  {
    assert ThreadOk(s, t);
    hide Counted;
    forall p | p in s.contexts && s.contexts[p].Process? ensures s.contexts[p].initial != t && t !in s.contexts[p].threads {
      assert ProcessOk(s, p);
    }
    forall u | u in s.contexts && s.contexts[u].Thread? ensures s.contexts[u].process != t {
      assert ThreadOk(s, u);
    }
  }

  lemma BackPointedLinks(s: State, t: Ctx, p: Ctx)
    requires Linked(s) && p in s.contexts && s.contexts[p].Process? && p != 0
    requires t in s.contexts && s.contexts[t].Thread? && !s.contexts[t].inList && Nameless(s, t)
    ensures Linked(BackPointed(s, t, p))
  {
    var s' := BackPointed(s, t, p);
    forall c | c in s.contexts && s.contexts[c].Process? ensures ProcessOk(s', c) {
      assert ProcessOk(s, c);
    }
    forall c | c in s.contexts && s.contexts[c].Thread? ensures ThreadOk(s', c) {
      assert ThreadOk(s, c);
    }
  }

  lemma BackPointedBacks(s: State, t: Ctx, p: Ctx, c: Ctx)
    requires t in s.contexts && s.contexts[t].Thread? && s.contexts[t].process == 0
    requires p != 0 && c != 0
    ensures Backs(BackPointed(s, t, p).contexts, c) == Backs(s.contexts, c) + if c == p then {t} else {}
    ensures t !in Backs(s.contexts, c)
  {
  }

  lemma BackPointedRefs(s: State, t: Ctx, p: Ctx, c: Ctx)
    requires p in s.contexts && s.contexts[p].Process? && p in s.outside && 0 !in s.contexts
    requires t in s.contexts && s.contexts[t].Thread? && s.contexts[t].process == 0 && Nameless(s, t)
    requires c in s.contexts
    ensures References(BackPointed(s, t, p), c) == References(s, c)
  {
    BackPointedBacks(s, t, p, c);
    hide Backs;
  }

  lemma BackPointedKeeps(s: State, t: Ctx, p: Ctx)
    requires Inv(s) && p in s.contexts && p in s.outside && s.contexts[p].Process?
    requires t in s.contexts && s.contexts[t].Thread? && s.contexts[t].process == 0
    ensures Inv(BackPointed(s, t, p))
  {
    hide Linked, References, Nameless;
    UnlinkedThread(s, t);
    BackPointedLinks(s, t, p);
    forall c | c in s.contexts ensures References(BackPointed(s, t, p), c) == References(s, c) {
      BackPointedRefs(s, t, p, c);
    }
    MoveKeeps(s, BackPointed(s, t, p));
  }

  // ---- creation and deletion ----

  /** A new context, not yet linked to anything, with its creator's reference. */
  function Fresh(id: nat, kind: Kind): Context {
    match kind
    case ProcessKind => Process(id, 1, [], 0, 0, 0)
    case ThreadKind => Thread(id, 1, 0, false)
  }

  function Created(s: State, id: nat, kind: Kind): State {
    s.(contexts := s.contexts[s.next := Fresh(id, kind)], outside := s.outside + multiset{s.next}, next := s.next + 1)
  }

  lemma CreatedRefs(s: State, id: nat, kind: Kind, c: Ctx)
    requires Inv(s) && (c in s.contexts || c == s.next)
    ensures s.next !in s.contexts && s.next !in s.outside
    ensures References(Created(s, id, kind), c) == if c == s.next then 1 else References(s, c)
  {
    var s' := Created(s, id, kind);
    NextIsNew(s);
    assert c in s.contexts && s.contexts[c].Thread? ==> ThreadOk(s, c);
    hide Inv;
    if c == s.next {
      assert Backs(s'.contexts, c) == {};
    } else {
      assert Backs(s'.contexts, c) == Backs(s.contexts, c);
    }
    hide Backs;
  }

  /** The next address is nowhere in use. */
  lemma NextIsNew(s: State)
    requires Inv(s)
    ensures s.next !in s.contexts && s.next !in s.outside && s.next != 0 && 0 !in s.contexts
    ensures forall id :: id in s.table ==> s.table[id] != s.next
    ensures s.systemHeld ==> s.system != s.next
    ensures forall t :: t in s.contexts && s.contexts[t].Thread? ==> s.contexts[t].process != s.next
    ensures forall p :: p in s.contexts && s.contexts[p].Process? ==> s.contexts[p].initial != s.next
  {
    forall t | t in s.contexts && s.contexts[t].Thread? ensures s.contexts[t].process != s.next {
      assert ThreadOk(s, t);
    }
    forall p | p in s.contexts && s.contexts[p].Process? ensures s.contexts[p].initial != s.next {
      assert ProcessOk(s, p);
    }
    hide References;
  }

  lemma CreatedLinks(s: State, id: nat, kind: Kind)
    requires Linked(s) && s.next !in s.contexts
    ensures Linked(Created(s, id, kind))
  {
    var s' := Created(s, id, kind);
    forall c | c in s.contexts
      ensures if s.contexts[c].Process? then ProcessOk(s', c) else ThreadOk(s', c)
    {
      if s.contexts[c].Process? {
        assert ProcessOk(s, c);
      } else {
        assert ThreadOk(s, c);
      }
    }
  }

  lemma CreatedAccounts(s: State, id: nat, kind: Kind)
    requires Accounted(s)
    ensures Accounted(Created(s, id, kind)) && s.next !in s.contexts
  {
  }

  lemma CreatedKeeps(s: State, id: nat, kind: Kind)
    requires Inv(s)
    ensures Inv(Created(s, id, kind)) && s.next !in s.contexts && s.next != 0
  {
    hide Linked, References;
    var s' := Created(s, id, kind);
    CreatedAccounts(s, id, kind);
    CreatedLinks(s, id, kind);
    forall c | c in s'.contexts ensures References(s', c) == s'.contexts[c].count {
      CreatedRefs(s, id, kind, c);
    }
  }

  /** The deletion of a context: a thread hands the reference in its back pointer to the deleter. */
  function Forgotten(s: State, c: Ctx): State
    requires c in s.contexts
  {
    var released := if s.contexts[c].Thread? && s.contexts[c].process != 0 then multiset{s.contexts[c].process} else multiset{};
    s.(contexts := s.contexts - {c}, deferred := s.deferred - {c}, deleted := s.deleted + [c], outside := s.outside + released)
  }

  /** Nothing at all names a context that awaits deletion. */
  lemma NothingNames(s: State, c: Ctx)
    requires Inv(s) && c in s.deferred
    ensures c in s.contexts && c !in s.outside && !(s.systemHeld && s.system == c) && Nameless(s, c)
    ensures forall id :: id in s.table ==> s.table[id] != c
    ensures s.contexts[c].Thread? ==> ThreadOk(s, c)
  {
    DeletedIsUnlinked(s, c);
    SystemKeepsCount(s, c);
    hide References, Counted;
    forall t | t in s.contexts && s.contexts[t].Thread? ensures s.contexts[t].process != c {
      assert ThreadOk(s, t);
      assert s.contexts[t].process == c ==> t in Backs(s.contexts, c);
    }
    forall p | p in s.contexts && s.contexts[p].Process?
      ensures s.contexts[p].initial != c && c !in s.contexts[p].threads
    {
      assert ProcessOk(s, p);
      assert s.contexts[p].initial == c ==> c != 0;
    }
  }

  lemma ForgottenBacks(s: State, c: Ctx, x: Ctx)
    requires c in s.contexts && x != 0
    ensures
      var s' := Forgotten(s, c);
      |Backs(s.contexts, x)| == |Backs(s'.contexts, x)|
        + One(s.contexts[c].Thread? && s.contexts[c].process == x)
  {
    var s' := Forgotten(s, c);
    if s.contexts[c].Thread? && s.contexts[c].process == x {
      assert Backs(s.contexts, x) == Backs(s'.contexts, x) + {c};
    } else {
      assert Backs(s'.contexts, x) == Backs(s.contexts, x);
    }
  }

  lemma ForgottenRefs(s: State, c: Ctx, x: Ctx)
    requires c in s.contexts && x in s.contexts && x != c && x != 0
    requires Nameless(s, c) && (forall id :: id in s.table ==> s.table[id] != c)
    requires s.contexts[c].Thread? ==> ThreadOk(s, c)
    ensures References(Forgotten(s, c), x) == References(s, x)
  {
    ForgottenBacks(s, c, x);
    hide Backs;
  }

  lemma ForgottenLinks(s: State, c: Ctx)
    requires Linked(s) && c in s.contexts && Nameless(s, c) && !(s.systemHeld && s.system == c)
    requires forall id :: id in s.table ==> s.table[id] != c
    ensures Linked(Forgotten(s, c))
  {
    var s' := Forgotten(s, c);
    forall x | x in s.contexts && x != c && s.contexts[x].Process? ensures ProcessOk(s', x) {
      assert ProcessOk(s, x);
    }
    forall x | x in s.contexts && x != c && s.contexts[x].Thread? ensures ThreadOk(s', x) {
      assert ThreadOk(s, x);
    }
  }

  lemma ForgottenOutside(s: State, c: Ctx)
    requires Linked(s) && c in s.contexts && c !in s.outside
    requires s.contexts[c].Thread? ==> s.contexts[c].process != c
    requires forall x :: x in s.outside ==> x in s.contexts
    ensures forall x :: x in Forgotten(s, c).outside ==> x in s.contexts && x != c
  {
    assert s.contexts[c].Thread? ==> ThreadOk(s, c);
  }

  lemma NamesOther(s: State, c: Ctx)
    requires Nameless(s, c) && c in s.contexts
    ensures s.contexts[c].Thread? ==> s.contexts[c].process != c
  {
  }

  lemma ForgottenAccounts(s: State, c: Ctx)
    requires Accounted(s) && c in s.contexts
    ensures Accounted(Forgotten(s, c))
  {
  }

  lemma SystemKeepsCount(s: State, c: Ctx)
    requires Inv(s) && c in s.deferred
    ensures !(s.systemHeld && s.system == c)
  {
  }

  lemma ForgottenKeeps(s: State, c: Ctx)
    requires Inv(s) && c in s.deferred
    ensures c in s.contexts && Inv(Forgotten(s, c))
  {
    hide Linked, References, Nameless;
    var s' := Forgotten(s, c);
    NothingNames(s, c);
    NamesOther(s, c);
    ForgottenOutside(s, c);
    ForgottenAccounts(s, c);
    ForgottenLinks(s, c);
    forall x | x in s'.contexts ensures References(s', x) == s.contexts[x].count {
      ForgottenRefs(s, c, x);
    }
  }

  // ---- the pointer to the System process's context ----

  function SystemSet(s: State, p: Ctx): State {
    s.(system := p, systemHeld := true, outside := s.outside - multiset{p})
  }

  function SystemReleased(s: State): State {
    s.(systemHeld := false, outside := s.outside + multiset{s.system})
  }

  lemma SystemSetKeeps(s: State, p: Ctx)
    requires Inv(s) && p in s.contexts && p in s.outside && s.contexts[p].Process? && !s.systemHeld
    ensures Inv(SystemSet(s, p))
  {
    var s' := SystemSet(s, p);
    hide Linked, References, Accounted;
    SystemLinks(s, s');
    forall c | c in s.contexts ensures References(s', c) == References(s, c) {
      SystemSetRefs(s, p, c);
    }
    MoveKeeps(s, s');
  }

  lemma SystemLinks(s: State, s': State)
    requires Linked(s) && (s'.table, s'.contexts) == (s.table, s.contexts)
    requires s'.systemHeld ==> s'.system in s.contexts && s.contexts[s'.system].Process?
    ensures Linked(s')
  {
    forall c | c in s.contexts
      ensures if s.contexts[c].Process? then ProcessOk(s', c) else ThreadOk(s', c)
    {
      if s.contexts[c].Process? {
        assert ProcessOk(s, c);
      } else {
        assert ThreadOk(s, c);
      }
    }
  }

  lemma SystemSetRefs(s: State, p: Ctx, c: Ctx)
    requires p in s.contexts && p in s.outside && s.contexts[p].Process? && !s.systemHeld && c in s.contexts
    ensures References(SystemSet(s, p), c) == References(s, c)
  {
    hide Backs;
  }

  lemma SystemReleasedRefs(s: State, c: Ctx)
    requires Inv(s) && s.systemHeld && c in s.contexts
    ensures References(SystemReleased(s), c) == References(s, c)
  {
    hide Backs, ThreadOk, ProcessOk;
  }

  lemma SystemReleasedKeeps(s: State)
    requires Inv(s) && s.systemHeld
    ensures Inv(SystemReleased(s))
  {
    var s' := SystemReleased(s);
    forall c | c in s.contexts ensures References(s', c) == References(s, c) {
      SystemReleasedRefs(s, c);
    }
    SystemLinks(s, s');
    hide Linked, References;
    MoveKeeps(s, s');
  }

  // ---- the moves and what is settled ----

  lemma StoredSettles(s: State, id: nat, c: Ctx)
    requires SettledBut(s, {c}) && c in s.contexts && s.contexts[c].id == id && id !in s.table
    ensures Settled(Stored(s, id, c))
  {
  }

  lemma RemovedSettles(s: State, id: nat, x: set<Ctx>)
    requires SettledBut(s, x) && id in s.table
    ensures SettledBut(Removed(s, id), x + {s.table[id]})
  {
  }

  /** Linking a thread to a tracked process concerns that thread only. */
  lemma LinkSettles(s: State, p: Ctx, t: Ctx)
    requires SettledBut(s, {t}) && IsThreadOf(s, t, p) && p in s.contexts && s.contexts[p].Process? && Tracked(s, p)
    ensures SettledBut(Listed(s, p, t), {t}) && SettledBut(InitialSet(s, p, t), {t})
  {
  }

  lemma UnlinkSettles(s: State, p: Ctx, t: Ctx, gone: nat, x: set<Ctx>)
    requires SettledBut(s, x) && p in s.contexts && s.contexts[p].Process? && 0 !in s.contexts
    requires t in s.contexts && s.contexts[t].Thread?
    ensures SettledBut(Unlisted(s, p, t, gone), x) && SettledBut(InitialCleared(s, p), x)
  {
  }

  lemma BackPointSettles(s: State, t: Ctx, p: Ctx)
    requires SettledBut(s, {t}) && t in s.contexts && s.contexts[t].Thread?
    ensures SettledBut(BackPointed(s, t, p), {t})
  {
  }

  lemma CreatedSettles(s: State, id: nat, kind: Kind)
    requires Settled(s) && s.next !in s.contexts && 0 !in s.contexts && s.next != 0
    requires forall t :: t in s.contexts && s.contexts[t].Thread? ==> s.contexts[t].process != s.next
    requires forall c :: c in s.table.Values ==> c != s.next
    ensures SettledBut(Created(s, id, kind), {s.next})
  {
  }

  lemma ForgottenSettles(s: State, c: Ctx)
    requires Settled(s) && c in s.contexts
    ensures Settled(Forgotten(s, c))
  {
  }

  // ---- what a call may rely on ----

  lemma TrackedFacts(s: State, id: nat)
    requires Inv(s) && id in s.table
    ensures
      var c := s.table[id];
      && c != 0 && c in s.contexts && s.contexts[c].id == id && id < CID_MAX && Tracked(s, c)
      && s.contexts[c].count > 0 && c !in s.deferred
  {
  }

  lemma ThreadFacts(s: State, t: Ctx)
    requires Inv(s) && t in s.contexts && s.contexts[t].Thread?
    ensures t != 0 && (s.contexts[t].process != 0 ==>
      s.contexts[t].process in s.contexts && s.contexts[s.contexts[t].process].Process?)
    ensures s.contexts[t].inList ==> s.contexts[t].process != 0
  {
    assert ThreadOk(s, t);
    hide Counted;
  }

  lemma LiveOutside(s: State, c: Ctx)
    requires Inv(s) && c in s.outside
    ensures c in s.contexts && s.contexts[c].count > 0
  {
  }

  lemma TableBelowNext(s: State)
    requires Inv(s)
    ensures forall id :: id in s.table ==> s.table[id] in s.contexts && s.table[id] < s.next
  {
    hide Counted;
  }

  lemma SystemSetSettles(s: State, p: Ctx, x: set<Ctx>)
    requires SettledBut(s, x)
    ensures SettledBut(SystemSet(s, p), x)
  {
  }

  lemma NoNull(s: State)
    requires Inv(s)
    ensures 0 !in s.contexts
  {
    hide Linked, Counted;
  }

  /** The head of a thread list is a thread of this process, marked as listed. */
  lemma HeadIsListed(s: State, p: Ctx)
    requires Inv(s) && p in s.contexts && s.contexts[p].Process? && s.contexts[p].threads != []
    ensures
      var t := s.contexts[p].threads[0];
      IsThreadOf(s, t, p) && s.contexts[t].inList && t !in s.contexts[p].threads[1..]
  {
    assert ProcessOk(s, p);
    assert s.contexts[p].threads[0] in s.contexts[p].threads;
    hide Counted, Accounted;
  }

  lemma InitialIsThread(s: State, p: Ctx)
    requires Inv(s) && p in s.contexts && s.contexts[p].Process? && s.contexts[p].initial != 0
    ensures IsThreadOf(s, s.contexts[p].initial, p)
  {
    assert ProcessOk(s, p);
    hide Counted, Accounted;
  }

  lemma UnlinkedSettles(s: State, p: Ctx, x: set<Ctx>)
    requires SettledBut(s, x) && p in s.contexts && s.contexts[p].Process?
    requires s.contexts[p].threads == [] && s.contexts[p].initial == 0
    ensures SettledBut(s, x - {p})
  {
  }

  lemma ThreadSettles(s: State, t: Ctx)
    requires SettledBut(s, {t}) && 0 !in s.contexts && t in s.contexts && s.contexts[t].Thread?
    requires !s.contexts[t].inList && !IsInitial(s, t)
    ensures Settled(s)
  {
  }

  function HeadTaken(contexts: map<Ctx, Context>, p: Ctx): map<Ctx, Context>
    requires p in contexts && contexts[p].Process? && contexts[p].threads != []
    requires contexts[p].threads[0] in contexts && contexts[contexts[p].threads[0]].Thread?
  {
    var t := contexts[p].threads[0];
    contexts[p := WithThreads(contexts[p], contexts[p].threads[1..], -1, 1)][t := WithInList(contexts[t], false)]
  }

  lemma UnlinkingNext(before: map<Ctx, Context>, contexts: map<Ctx, Context>, p: Ctx, n: nat, t: Ctx)
    requires contexts.Keys == before.Keys && p in before && before[p].Process? && n < |before[p].threads|
    requires forall c :: c in contexts ==> Links(contexts[c]) == Unlinking(before, p, n, c)
    requires contexts[p].Process? && contexts[p].threads != [] && t == contexts[p].threads[0]
    requires t in contexts && contexts[t].Thread?
    ensures HeadTaken(contexts, p).Keys == before.Keys
    ensures forall c :: c in contexts ==> Links(HeadTaken(contexts, p)[c]) == Unlinking(before, p, n + 1, c)
  {
    assert Links(contexts[p]) == Unlinking(before, p, n, p);
    assert t == before[p].threads[n];
    assert before[p].threads[..n + 1] == before[p].threads[..n] + [t];
    forall c | c in contexts ensures Links(HeadTaken(contexts, p)[c]) == Unlinking(before, p, n + 1, c) {
      assert Links(contexts[c]) == Unlinking(before, p, n, c);
    }
  }

  lemma KindsKept(before: map<Ctx, Context>, after: map<Ctx, Context>, p: Ctx)
    requires p in before && before[p].Process? && before.Keys == after.Keys
    requires forall c :: c in after ==> Links(after[c]) == ProcessUnlinked(before, p, c)
    ensures forall c :: c in after && before[c].Thread? ==> after[c].Thread?
  {
  }

  ghost predicate OnlyThreads(contexts: map<Ctx, Context>, x: set<Ctx>) {
    forall c :: c in x ==> c in contexts && contexts[c].Thread?
  }

  lemma NoneYet(s: State)
    requires Settled(s)
    ensures SettledBut(s, {}) && OnlyThreads(s.contexts, {})
  {
  }

  /** With the table empty every process has been unlinked, so no thread is linked either. */
  lemma RundownSettles(s: State, x: set<Ctx>)
    requires Inv(s) && SettledBut(s, x) && OnlyThreads(s.contexts, x)
    requires forall id :: id in s.table ==> CID_MAX <= id
    ensures s.table == map[] && Settled(s)
  {
    assert forall id :: id !in s.table;
    hide Counted, Accounted;
    forall c | c in s.contexts && s.contexts[c].Thread? ensures !s.contexts[c].inList && !IsInitial(s, c) {
      assert ThreadOk(s, c);
    }
  }

  lemma SystemReleasedSettles(s: State, x: set<Ctx>)
    requires SettledBut(s, x)
    ensures SettledBut(SystemReleased(s), x)
  {
  }

  lemma UntrackedThreadsGone(s: State)
    requires Inv(s) && Settled(s) && s.table == map[]
    ensures forall c :: c in s.contexts && s.contexts[c].Thread? && s.outside[c] == 0 ==> s.contexts[c].count == 0
  {
  }

  lemma IdInRange(s: State, id: nat)
    requires Inv(s) && id >= CID_MAX
    ensures id !in s.table
  {
    hide Counted, Accounted;
  }

  /** The links of `c` after the first `n` threads of process `p` were unlinked. */
  function Unlinking(before: map<Ctx, Context>, p: Ctx, n: nat, c: Ctx): Context
    requires p in before && before[p].Process? && n <= |before[p].threads| && c in before
  {
    var x := before[p];
    if c == p then Process(x.id, 0, x.threads[n..], x.number - n, x.unlinked + n, x.initial)
    else if before[c].Thread? && c in x.threads[..n] then WithInList(Links(before[c]), false)
    else Links(before[c])
  }

  /** The links of `c` after all threads of process `p` were unlinked. */
  function ProcessUnlinked(before: map<Ctx, Context>, p: Ctx, c: Ctx): Context
    requires p in before && before[p].Process? && c in before
  {
    var x := Unlinking(before, p, |before[p].threads|, c);
    if c == p then WithInitial(x, 0) else x
  }

  /** The links of `c` after thread `t` was unlinked from its process. */
  function ThreadUnlinked(before: map<Ctx, Context>, t: Ctx, c: Ctx): Context
    requires t in before && before[t].Thread? && c in before
  {
    var x := Links(before[c]);
    if c == t then WithInList(x, false)
    else if x.Process? && c == before[t].process then
      var y := if before[t].inList then WithThreads(x, Without(x.threads, t), -1, 0) else x;
      if y.initial == t then WithInitial(y, 0) else y
    else x
  }

  /** The links of `c` after thread `t` was taken off process `p`'s list, if it was on it. */
  function OffList(before: map<Ctx, Context>, p: Ctx, t: Ctx, c: Ctx): Context
    requires t in before && before[t].Thread? && p in before && before[p].Process? && c in before
  {
    if !before[t].inList then Links(before[c])
    else if c == t then WithInList(Links(before[t]), false)
    else if c == p then WithThreads(Links(before[p]), Without(before[p].threads, t), -1, 0)
    else Links(before[c])
  }

  /** The links of `c` after process `p`'s initial thread was forgotten, if it was `t`. */
  function NotInitial(before: map<Ctx, Context>, p: Ctx, t: Ctx, c: Ctx): Context
    requires p in before && before[p].Process? && c in before
  {
    if c == p && before[p].initial == t then WithInitial(Links(before[p]), 0) else Links(before[c])
  }

  /** Unlisting and then clearing the initial thread, where needed, unlink a thread. */
  lemma UnlinkSteps(before: map<Ctx, Context>, middle: map<Ctx, Context>, after: map<Ctx, Context>, t: Ctx, p: Ctx, c: Ctx)
    requires t in before && before[t].Thread? && before[t].process == p != t && p in before && before[p].Process? && c in before
    requires middle.Keys == before.Keys == after.Keys
    requires Links(middle[c]) == OffList(before, p, t, c) && middle[p].Process?
    requires Links(after[c]) == NotInitial(middle, p, t, c)
    ensures Links(after[c]) == ThreadUnlinked(before, t, c)
  {
    hide Without;
  }

  lemma NothingToUnlink(before: map<Ctx, Context>, t: Ctx, c: Ctx)
    requires t in before && before[t].Thread? && before[t].process == 0 && !before[t].inList && c in before && 0 !in before
    ensures Links(before[c]) == ThreadUnlinked(before, t, c)
  {
  }

  function InitialOffered(before: map<Ctx, Context>, t: Ctx, p: Ctx, c: Ctx): Context
    requires c in before
  {
    var x := Links(before[c]);
    if c == p && x.Process? && x.initial == 0 then WithInitial(x, t) else x
  }

  lemma StepsLink(before: map<Ctx, Context>, middle: map<Ctx, Context>, after: map<Ctx, Context>, t: Ctx, p: Ctx, c: Ctx)
    requires t in before && before[t].Thread? && !before[t].inList && p in before && before[p].Process? && c in before && t != p
    requires middle.Keys == before.Keys == after.Keys
    requires Links(middle[c]) == InitialOffered(before[t := WithProcess(before[t], p)], t, p, c) && middle[t].Thread?
    requires c == p ==> Links(after[p]) == WithThreads(Links(middle[p]), middle[p].threads + [t], 1, 0)
    requires c == t ==> Links(after[t]) == WithInList(Links(middle[t]), true)
    requires c != p && c != t ==> Links(after[c]) == Links(middle[c])
    requires p != 0
    ensures Links(after[c]) == ThreadLinked(before, t, before[t].id, p, c)
  {
  }

  /** The links of `c` after thread `t` was linked to its process. */
  function ThreadLinked(before: map<Ctx, Context>, t: Ctx, id: nat, p: Ctx, c: Ctx): Context
    requires c == t || c in before
  {
    if c == t then Thread(id, 0, p, p != 0)
    else
      var x := Links(before[c]);
      if x.Process? && c == p != 0 then
        var y := WithThreads(x, x.threads + [t], 1, 0);
        if y.initial == 0 then WithInitial(y, t) else y
      else x
  }

  /** A lookup before it changes nothing in how a thread is linked. */
  lemma LinkedAsBefore(before: map<Ctx, Context>, found: map<Ctx, Context>, after: map<Ctx, Context>, t: Ctx, p: Ctx)
    requires LinksKept(before, found) && t in before && before[t].Thread? && before[t].process == 0 && !before[t].inList
    requires after.Keys == found.Keys && t != 0
    requires if p == 0 then after == found
             else forall c :: c in after ==> Links(after[c]) == ThreadLinked(found, t, found[t].id, p, c)
    ensures forall c :: c in after ==> Links(after[c]) == ThreadLinked(before, t, before[t].id, p, c)
  {
    assert Links(found[t]) == Links(before[t]);
  }

  class Tracker {
    var table: map<nat, Ctx>
    var contexts: map<Ctx, Context>
    var system: Ctx
    var deferred: set<Ctx>
    var next: Ctx
    ghost var systemHeld: bool
    ghost var outside: multiset<Ctx>
    ghost var deleted: seq<Ctx>
    /** Table entries and contexts that could not be had so far. */
    ghost var failures: nat

    ghost function Now(): State
      reads this
    {
      State(table, contexts, system, systemHeld, deferred, next, outside, deleted)
    }

    ghost predicate Valid()
      reads this
    {
      Inv(Now())
    }

    /** Between calls, until the table is run down: the pointer to the System process's context owns a reference. */
    ghost predicate Running()
      reads this
    {
      Valid() && Settled(Now()) && (systemHeld <==> system != 0)
    }

    constructor ()
      ensures Running() && Now() == State(map[], map[], 0, false, {}, 1, multiset{}, [])
    {
      table, contexts, system, deferred, next := map[], map[], 0, {}, 1;
      systemHeld, outside, deleted, failures := false, multiset{}, [], 0;
    }

    /** A live context is referenced once more, on a caller's behalf. */
    method Reference(c: Ctx)
      requires Valid() && c in contexts && contexts[c].count > 0
      modifies this`contexts, this`outside
      ensures Valid() && Now() == Referenced(old(Now()), c) && SameLinks(old(Now()), Now())
      ensures forall x :: old(SettledBut(Now(), x)) ==> SettledBut(Now(), x)
    {
      hide Inv, SettledBut, SameLinks;
      ReferenceKeeps(Now(), c);
      contexts := contexts[c := AddCount(contexts[c], 1)];
      assert contexts[c].count > 1;
      outside := outside + multiset{c};
    }

    /** A caller's reference is given up; the last one hands the context to the deletion worker. */
    method Dereference(c: Ctx)
      requires Valid() && c in outside
      modifies this`contexts, this`outside, this`deferred
      ensures c in old(contexts) && Valid() && Now() == Dereferenced(old(Now()), c) && SameLinks(old(Now()), Now())
      ensures forall x :: old(SettledBut(Now(), x)) ==> SettledBut(Now(), x)
    {
      hide Inv, SettledBut, SameLinks;
      DereferenceKeeps(Now(), c);
      contexts := contexts[c := AddCount(contexts[c], -1)];
      outside := outside - multiset{c};
      if contexts[c].count <= 0 {
        assert contexts[c].count == 0;
        deferred := deferred + {c};
      }
    }

    /** The tracked context of an id, if it is of the expected kind. */
    method LookupContext(id: nat, kind: Kind) returns (c: Ctx)
      requires Valid()
      modifies this`contexts, this`outside, this`deferred
      ensures Valid() && forall x :: old(SettledBut(Now(), x)) ==> SettledBut(Now(), x)
      ensures c == if id in table && table[id] in old(contexts) && KindOf(old(contexts)[table[id]]) == kind then table[id] else 0
      ensures Now() == if c == 0 then old(Now()) else Referenced(old(Now()), c)
    {
      hide Inv, SettledBut;
      if id !in table {
        return 0;
      }
      c := table[id];
      ghost var s := Now();
      TrackedFacts(s, id);
      Reference(c);
      if KindOf(contexts[c]) != kind {
        Dereference(c);
        ThereAndBack(s, c);
        c := 0;
      }
    }

    /** Stop tracking an id: the caller takes the table's place as owner of the context. */
    method UntrackContext(id: nat, kind: Kind) returns (c: Ctx)
      requires Valid() && Settled(Now())
      modifies this`table, this`contexts, this`outside, this`deferred
      ensures Valid() && (c != 0 ==> SettledBut(Now(), {c}))
      ensures c == if id in old(table) && old(table)[id] in old(contexts) && KindOf(old(contexts)[old(table)[id]]) == kind
                   then old(table)[id] else 0
      ensures Now() == if c == 0 then old(Now()) else Removed(old(Now()), id)
      ensures c != 0 ==> c in contexts && c in outside
    {
      hide Inv, SettledBut;
      ghost var s := Now();
      c := LookupContext(id, kind);
      if c == 0 {
        return;
      }
      TrackedFacts(s, id);
      EmptyEntry(id, {});
      Dereference(c);
      assert {} + {c} == {c};
      RemoveAndBack(s, id);
    }

    /** Move the object out of a table entry. */
    method EmptyEntry(id: nat, ghost x: set<Ctx>)
      requires Valid() && SettledBut(Now(), x) && id in table
      modifies this`table, this`outside
      ensures Valid() && Now() == Removed(old(Now()), id) && SettledBut(Now(), x + {old(table)[id]})
      ensures old(table)[id] in contexts && old(table)[id] != 0
    {
      hide Inv, SettledBut;
      TrackedFacts(Now(), id);
      RemovedKeeps(Now(), id);
      RemovedSettles(Now(), id, x);
      outside := outside + multiset{table[id]};
      table := table - {id};
    }

    /** Empty a process's thread list and forget its initial thread. */
    method UnlinkThreads(p: Ctx, ghost x: set<Ctx>)
      requires Valid() && p in contexts && contexts[p].Process? && SettledBut(Now(), x)
      modifies this`contexts, this`outside, this`deferred
      ensures Valid() && SettledBut(Now(), x - {p}) && outside == old(outside)
      ensures p in contexts && contexts[p].Process? && contexts[p].threads == [] && contexts[p].initial == 0
      ensures contexts.Keys == old(contexts).Keys
      ensures forall c :: c in contexts ==> Links(contexts[c]) == ProcessUnlinked(old(contexts), p, c)
    {
      hide Inv, SettledBut;
      ghost var before := contexts;
      ghost var n := 0;
      while contexts[p].threads != []
        invariant Valid() && SettledBut(Now(), x) && outside == old(outside)
        invariant contexts.Keys == before.Keys && n <= |before[p].threads|
        invariant forall c :: c in contexts ==> Links(contexts[c]) == Unlinking(before, p, n, c)
        decreases |before[p].threads| - n
      {
        UnlinkHead(p, x, before, n);
        n := n + 1;
      }
      NoNull(Now());
      if contexts[p].initial != 0 {
        ClearInitial(p);
      }
      UnlinkedSettles(Now(), p, x);
    }

    method UnlinkHead(p: Ctx, ghost x: set<Ctx>, ghost before: map<Ctx, Context>, ghost n: nat)
      requires Valid() && p in contexts && contexts[p].Process? && SettledBut(Now(), x) && contexts[p].threads != []
      requires contexts.Keys == before.Keys && before[p].Process? && n < |before[p].threads|
      requires forall c :: c in contexts ==> Links(contexts[c]) == Unlinking(before, p, n, c)
      modifies this`contexts, this`outside, this`deferred
      ensures Valid() && SettledBut(Now(), x) && outside == old(outside)
      ensures contexts.Keys == before.Keys
      ensures forall c :: c in contexts ==> Links(contexts[c]) == Unlinking(before, p, n + 1, c)
    {
      hide Inv, SettledBut;
      HeadIsListed(Now(), p);
      var t := contexts[p].threads[0];
      assert contexts[t].inList;
      UnlinkingNext(before, contexts, p, n, t);
      TakeHead(p, t, x);
      Dereference(t);
    }

    method TakeHead(p: Ctx, t: Ctx, ghost x: set<Ctx>)
      requires Valid() && p in contexts && contexts[p].Process? && SettledBut(Now(), x) && contexts[p].threads != []
      requires t == contexts[p].threads[0] && IsThreadOf(Now(), t, p) && contexts[t].inList
      modifies this`contexts, this`outside
      ensures Valid() && SettledBut(Now(), x) && outside == old(outside) + multiset{t}
      ensures contexts == HeadTaken(old(contexts), p)
    {
      hide Inv, SettledBut;
      ghost var s := Now();
      UnlistedKeeps(s, p, t, 1);
      NoNull(s);
      UnlinkSettles(s, p, t, 1, x);
      contexts := contexts[p := WithThreads(contexts[p], contexts[p].threads[1..], -1, 1)][t := WithInList(contexts[t], false)];
      outside := outside + multiset{t};
      assert Now() == Unlisted(s, p, t, 1);
    }

    /** Stop tracking a process and unlink its threads. */
    method UntrackProcess(id: nat) returns (p: Ctx)
      requires Valid() && Settled(Now())
      modifies this`table, this`contexts, this`outside, this`deferred
      ensures Valid() && Settled(Now())
      ensures p == if id in old(table) && old(table)[id] in old(contexts) && old(contexts)[old(table)[id]].Process?
                   then old(table)[id] else 0
      ensures p == 0 ==> Now() == old(Now())
      ensures p != 0 ==> table == old(table) - {id} && outside == old(outside) + multiset{p}
      ensures p != 0 ==> contexts.Keys == old(contexts).Keys
      ensures p != 0 ==> forall c :: c in contexts ==> Links(contexts[c]) == ProcessUnlinked(old(contexts), p, c)
    {
      hide Inv, SettledBut, Links, Unlinking;
      p := UntrackContext(id, ProcessKind);
      if p == 0 {
        return;
      }
      UnlinkThreads(p, {p});
      assert {p} - {p} == {};
    }

    /** Stop tracking a thread and unlink it from its process. */
    method UntrackThread(id: nat) returns (t: Ctx)
      requires Valid() && Settled(Now())
      modifies this`table, this`contexts, this`outside, this`deferred
      ensures Valid() && Settled(Now())
      ensures t == if id in old(table) && old(table)[id] in old(contexts) && old(contexts)[old(table)[id]].Thread?
                   then old(table)[id] else 0
      ensures t == 0 ==> Now() == old(Now())
      ensures t != 0 ==> table == old(table) - {id} && outside == old(outside) + multiset{t}
      ensures t != 0 ==> contexts.Keys == old(contexts).Keys
      ensures t != 0 ==> forall c :: c in contexts ==> Links(contexts[c]) == ThreadUnlinked(old(contexts), t, c)
    {
      hide Inv, SettledBut;
      t := UntrackContext(id, ThreadKind);
      if t != 0 {
        UnlinkThread(t);
      }
    }

    method UnlinkThread(t: Ctx)
      requires Valid() && t in contexts && contexts[t].Thread? && SettledBut(Now(), {t})
      modifies this`contexts, this`outside, this`deferred
      ensures Valid() && Settled(Now()) && outside == old(outside) && contexts.Keys == old(contexts).Keys
      ensures forall c :: c in contexts ==> Links(contexts[c]) == ThreadUnlinked(old(contexts), t, c)
    {
      hide Inv, SettledBut, ThreadUnlinked;
      ThreadFacts(Now(), t);
      NoNull(Now());
      var p := contexts[t].process;
      if p != 0 {
        UnlinkFrom(p, t);
      } else {
        forall c | c in contexts ensures Links(contexts[c]) == ThreadUnlinked(contexts, t, c) {
          NothingToUnlink(contexts, t, c);
        }
        ThreadSettles(Now(), t);
      }
    }

    method UnlinkFrom(p: Ctx, t: Ctx)
      requires Valid() && SettledBut(Now(), {t}) && IsThreadOf(Now(), t, p) && p in contexts && contexts[p].Process?
      modifies this`contexts, this`outside, this`deferred
      ensures Valid() && Settled(Now()) && outside == old(outside) && contexts.Keys == old(contexts).Keys
      ensures forall c :: c in contexts ==> Links(contexts[c]) == ThreadUnlinked(old(contexts), t, c)
    {
      hide Inv, SettledBut, ThreadUnlinked, OffList, NotInitial;
      ghost var before := contexts;
      TakeOffList(p, t);
      ghost var middle := contexts;
      TakeOffInitial(p, t);
      forall c | c in contexts ensures Links(contexts[c]) == ThreadUnlinked(before, t, c) {
        UnlinkSteps(before, middle, contexts, t, p, c);
      }
      NoNull(Now());
      ThreadSettles(Now(), t);
    }

    method TakeOffList(p: Ctx, t: Ctx)
      requires Valid() && SettledBut(Now(), {t}) && IsThreadOf(Now(), t, p) && p in contexts && contexts[p].Process?
      modifies this`contexts, this`outside, this`deferred
      ensures Valid() && SettledBut(Now(), {t}) && outside == old(outside) && contexts.Keys == old(contexts).Keys
      ensures IsThreadOf(Now(), t, p) && contexts[p].Process? && !contexts[t].inList
      ensures forall c :: c in contexts ==> Links(contexts[c]) == OffList(old(contexts), p, t, c)
    {
      hide Inv, SettledBut;
      if contexts[t].inList {
        Unlist(p, t);
      }
    }

    method TakeOffInitial(p: Ctx, t: Ctx)
      requires Valid() && SettledBut(Now(), {t}) && IsThreadOf(Now(), t, p) && p in contexts && contexts[p].Process?
      requires !contexts[t].inList
      modifies this`contexts, this`outside, this`deferred
      ensures Valid() && SettledBut(Now(), {t}) && outside == old(outside) && contexts.Keys == old(contexts).Keys
      ensures IsThreadOf(Now(), t, p) && !contexts[t].inList && !IsInitial(Now(), t)
      ensures forall c :: c in contexts ==> Links(contexts[c]) == NotInitial(old(contexts), p, t, c)
    {
      hide Inv, SettledBut;
      NoNull(Now());
      if contexts[p].initial == t {
        ClearInitial(p);
      }
    }

    method Unlist(p: Ctx, t: Ctx)
      requires Valid() && p in contexts && contexts[p].Process? && IsThreadOf(Now(), t, p) && contexts[t].inList
      modifies this`contexts, this`outside, this`deferred
      ensures Valid() && outside == old(outside)
      ensures SameLinks(Unlisted(old(Now()), p, t, 0), Now())
      ensures forall x :: old(SettledBut(Now(), x)) ==> SettledBut(Now(), x)
    {
      hide Inv, SettledBut;
      ghost var s := Now();
      UnlistedKeeps(s, p, t, 0);
      NoNull(s);
      forall x: set<Ctx> | SettledBut(s, x) ensures SettledBut(Unlisted(s, p, t, 0), x) {
        UnlinkSettles(s, p, t, 0, x);
      }
      contexts := contexts[p := WithThreads(contexts[p], Without(contexts[p].threads, t), -1, 0)]
                          [t := WithInList(contexts[t], false)];
      outside := outside + multiset{t};
      assert Now() == Unlisted(s, p, t, 0);
      Dereference(t);
    }

    method ClearInitial(p: Ctx)
      requires Valid() && p in contexts && contexts[p].Process? && contexts[p].initial != 0
      modifies this`contexts, this`outside, this`deferred
      ensures Valid() && outside == old(outside)
      ensures SameLinks(InitialCleared(old(Now()), p), Now())
      ensures forall x :: old(SettledBut(Now(), x)) ==> SettledBut(Now(), x)
    {
      hide Inv, SettledBut;
      ghost var s := Now();
      var t := contexts[p].initial;
      InitialClearedKeeps(s, p);
      InitialIsThread(s, p);
      NoNull(s);
      forall x: set<Ctx> | SettledBut(s, x) ensures SettledBut(InitialCleared(s, p), x) {
        UnlinkSettles(s, p, t, 0, x);
      }
      contexts := contexts[p := WithInitial(contexts[p], 0)];
      outside := outside + multiset{t};
      assert Now() == InitialCleared(s, p);
      Dereference(t);
    }

    /** Allocate and initialize a process context; the System process's is also pointed to by `system`. */
    method CreateProcess(id: nat, isSystem: bool) returns (p: Ctx)
      requires Valid() && Settled(Now()) && (isSystem ==> system == 0 && !systemHeld)
      modifies this`failures, this`contexts, this`outside, this`next, this`system, this`systemHeld
      ensures Valid() && p in {0, old(next)} && (p == 0 ==> Now() == old(Now()))
      ensures p != 0 ==> p !in old(contexts) && p in contexts && p in outside && SettledBut(Now(), {p})
      ensures p != 0 ==> contexts.Keys == old(contexts).Keys + {p} && outside == old(outside) + multiset{p} && next == p + 1
      ensures p != 0 ==> forall c :: c in contexts ==> Links(contexts[c]) == if c == p then Process(id, 0, [], 0, 0, 0) else Links(old(contexts)[c])
      ensures p != 0 ==> (system, systemHeld) == if isSystem then (p, true) else (old(system), old(systemHeld))
      ensures failures == old(failures) + if p == 0 then 1 else 0
    {
      hide Inv, SettledBut;
      if * {
        failures := failures + 1;
        return 0;
      }
      p := NewContext(id, ProcessKind);
      if isSystem {
        assert system == 0;
        HoldSystem(p);
      }
    }

    method HoldSystem(p: Ctx)
      requires Valid() && SettledBut(Now(), {p}) && p in contexts && contexts[p].Process? && p in outside && !systemHeld
      modifies this`contexts, this`outside, this`system, this`systemHeld
      ensures Valid() && SettledBut(Now(), {p}) && LinksKept(old(contexts), contexts) && outside == old(outside)
      ensures system == p && systemHeld
    {
      hide Inv, SettledBut;
      LiveOutside(Now(), p);
      Reference(p);
      SystemSetKeeps(Now(), p);
      SystemSetSettles(Now(), p, {p});
      outside := outside - multiset{p};
      system, systemHeld := p, true;
    }

    method NewContext(id: nat, kind: Kind) returns (c: Ctx)
      requires Valid() && Settled(Now())
      modifies this`contexts, this`outside, this`next
      ensures Valid() && c == old(next) && Now() == Created(old(Now()), id, kind)
      ensures c !in old(contexts) && c != 0 && SettledBut(Now(), {c}) && 0 !in contexts
    {
      hide Inv, SettledBut;
      CreatedKeeps(Now(), id, kind);
      NextIsNew(Now());
      CreatedSettles(Now(), id, kind);
      c := next;
      contexts, outside, next := contexts[c := Fresh(id, kind)], outside + multiset{c}, next + 1;
    }

    /**
     Allocate and initialize a thread context, linking it to its process if that is tracked. `apc` is
     whether an APC was queued to the thread; it owns a reference until it has run.
     */
    method CreateThread(id: nat, pid: nat, queues: bool) returns (t: Ctx, apc: bool, ghost p: Ctx)
      requires Valid() && Settled(Now())
      modifies this`failures, this`contexts, this`outside, this`next, this`deferred
      ensures Valid() && t in {0, old(next)} && (t == 0 ==> Now() == old(Now()))
      ensures p == if pid in table && table[pid] in old(contexts) && old(contexts)[table[pid]].Process? then table[pid] else 0
      ensures t != 0 ==> t !in old(contexts) && t in contexts && t in outside && SettledBut(Now(), {t}) && next == t + 1
      ensures t != 0 ==> contexts.Keys == old(contexts).Keys + {t}
      ensures t != 0 ==> outside == old(outside) + multiset{t} + (if apc then multiset{t} else multiset{})
      ensures t != 0 ==> forall c :: c in contexts ==> Links(contexts[c]) == ThreadLinked(old(contexts), t, id, p, c)
      ensures failures == old(failures) + if t == 0 then 1 else 0
      ensures apc <==> queues && t != 0
    {
      hide Inv, SettledBut, Links;
      p := if pid in table && table[pid] in contexts && contexts[table[pid]].Process? then table[pid] else 0;
      apc := false;
      if * {
        failures := failures + 1;
        return 0, false, p;
      }
      TableBelowNext(Now());
      t := NewContext(id, ThreadKind);
      apc := InitializeThread(t, pid, queues, p);
    }

    method InitializeThread(t: Ctx, pid: nat, queues: bool, ghost p: Ctx) returns (apc: bool)
      requires Valid() && SettledBut(Now(), {t}) && t in contexts && contexts[t].Thread? && t in outside && t != 0
      requires contexts[t].process == 0 && !contexts[t].inList
      requires p == if pid in table && table[pid] in contexts && contexts[table[pid]].Process? then table[pid] else 0
      modifies this`contexts, this`outside, this`deferred
      ensures Valid() && SettledBut(Now(), {t}) && contexts.Keys == old(contexts).Keys
      ensures outside == old(outside) + (if apc then multiset{t} else multiset{})
      ensures forall c :: c in contexts ==> Links(contexts[c]) == ThreadLinked(old(contexts), t, old(contexts)[t].id, p, c)
      ensures apc == queues
    {
      hide Inv, SettledBut;
      ghost var before := contexts;
      var process := LookupContext(pid, ProcessKind);
      ghost var found := contexts;
      assert LinksKept(before, found);
      if process != 0 {
        TrackedFacts(Now(), pid);
        AttachThread(t, process);
      }
      LinkedAsBefore(before, found, contexts, t, p);
      hide ThreadLinked, LinksKept;
      apc := QueueApc(t, queues);
    }

    /** An APC to the thread, if one can be queued (`queues`), owns a reference to the thread's context. */
    method QueueApc(t: Ctx, queues: bool) returns (apc: bool)
      requires Valid() && t in contexts && t in outside
      modifies this`contexts, this`outside
      ensures Valid() && SameLinks(old(Now()), Now()) && outside == old(outside) + (if apc then multiset{t} else multiset{})
      ensures apc == queues
      ensures forall x :: old(SettledBut(Now(), x)) ==> SettledBut(Now(), x)
    {
      apc := false;
      hide Inv, SettledBut;
      if queues {
        LiveOutside(Now(), t);
        Reference(t);
        apc := true;
      }
    }

    /** Set the back pointer, then the initial thread if there is none, then append to the list. */
    method AttachThread(t: Ctx, p: Ctx)
      requires Valid() && SettledBut(Now(), {t}) && t in contexts && contexts[t].Thread? && contexts[t].process == 0
      requires t in outside && p in outside && p in contexts && contexts[p].Process? && Tracked(Now(), p) && p != t
      modifies this`contexts, this`outside
      ensures Valid() && SettledBut(Now(), {t}) && outside == old(outside) - multiset{p}
      ensures contexts.Keys == old(contexts).Keys
      ensures forall c :: c in contexts ==> Links(contexts[c]) == ThreadLinked(old(contexts), t, old(contexts)[t].id, p, c)
    {
      hide Inv, SettledBut;
      ghost var before := contexts;
      BackPoint(t, p);
      OfferInitial(t, p);
      ghost var middle := contexts;
      ReferenceAndAppend(t, p);
      forall c | c in contexts ensures Links(contexts[c]) == ThreadLinked(before, t, before[t].id, p, c) {
        StepsLink(before, middle, contexts, t, p, c);
      }
    }

    method ReferenceAndAppend(t: Ctx, p: Ctx)
      requires Valid() && SettledBut(Now(), {t}) && p in contexts && contexts[p].Process? && IsThreadOf(Now(), t, p)
      requires !contexts[t].inList && t in outside && Tracked(Now(), p)
      modifies this`contexts, this`outside
      ensures Valid() && SettledBut(Now(), {t}) && outside == old(outside) && contexts.Keys == old(contexts).Keys
      ensures Links(contexts[p]) == WithThreads(Links(old(contexts)[p]), old(contexts)[p].threads + [t], 1, 0)
      ensures Links(contexts[t]) == WithInList(Links(old(contexts)[t]), true)
      ensures forall c :: c in contexts && c != p && c != t ==> Links(contexts[c]) == Links(old(contexts)[c])
    {
      hide Inv, SettledBut;
      LiveOutside(Now(), t);
      Reference(t);
      AppendThread(t, p);
    }

    method OfferInitial(t: Ctx, p: Ctx)
      requires Valid() && SettledBut(Now(), {t}) && p in contexts && contexts[p].Process? && IsThreadOf(Now(), t, p)
      requires t in outside && Tracked(Now(), p)
      modifies this`contexts, this`outside
      ensures Valid() && SettledBut(Now(), {t}) && outside == old(outside) && contexts.Keys == old(contexts).Keys
      ensures forall c :: c in contexts ==> Links(contexts[c]) == InitialOffered(old(contexts), t, p, c)
    {
      hide Inv, SettledBut;
      if contexts[p].initial == 0 {
        LiveOutside(Now(), t);
        Reference(t);
        TakeInitial(t, p);
      }
    }

    method BackPoint(t: Ctx, p: Ctx)
      requires Valid() && SettledBut(Now(), {t}) && t in contexts && contexts[t].Thread? && contexts[t].process == 0
      requires p in outside && p in contexts && contexts[p].Process?
      modifies this`contexts, this`outside
      ensures Valid() && SettledBut(Now(), {t}) && Now() == BackPointed(old(Now()), t, p)
      ensures p != 0 && !contexts[t].inList
    {
      hide Inv, SettledBut;
      assert contexts[t].process == 0;
      UnlinkedThread(Now(), t);
      BackPointedKeeps(Now(), t, p);
      BackPointSettles(Now(), t, p);
      contexts := contexts[t := WithProcess(contexts[t], p)];
      outside := outside - multiset{p};
    }

    method TakeInitial(t: Ctx, p: Ctx)
      requires Valid() && SettledBut(Now(), {t}) && p in contexts && contexts[p].Process? && IsThreadOf(Now(), t, p)
      requires contexts[p].initial == 0 && t in outside && Tracked(Now(), p)
      modifies this`contexts, this`outside
      ensures Valid() && SettledBut(Now(), {t}) && Now() == InitialSet(old(Now()), p, t)
    {
      hide Inv, SettledBut;
      InitialSetKeeps(Now(), p, t);
      LinkSettles(Now(), p, t);
      contexts := contexts[p := WithInitial(contexts[p], t)];
      outside := outside - multiset{t};
    }

    method AppendThread(t: Ctx, p: Ctx)
      requires Valid() && SettledBut(Now(), {t}) && p in contexts && contexts[p].Process? && IsThreadOf(Now(), t, p)
      requires !contexts[t].inList && t in outside && Tracked(Now(), p)
      modifies this`contexts, this`outside
      ensures Valid() && SettledBut(Now(), {t}) && Now() == Listed(old(Now()), p, t)
    {
      hide Inv, SettledBut;
      ListedKeeps(Now(), p, t);
      LinkSettles(Now(), p, t);
      contexts := contexts[p := WithThreads(contexts[p], contexts[p].threads + [t], 1, 0)][t := WithInList(contexts[t], true)];
      outside := outside - multiset{t};
    }

    /** Store a new context in its table entry; the table takes a reference of its own. */
    method AssignEntry(id: nat, c: Ctx)
      requires Valid() && SettledBut(Now(), {c}) && c in contexts && contexts[c].id == id && c in outside
      requires id < CID_MAX && id !in table
      modifies this`table, this`contexts, this`outside
      ensures Valid() && Settled(Now()) && table == old(table)[id := c] && outside == old(outside)
      ensures LinksKept(old(contexts), contexts)
    {
      hide Inv, SettledBut;
      LiveOutside(Now(), c);
      Reference(c);
      StoredKeeps(Now(), id, c);
      StoredSettles(Now(), id, c);
      table, outside := table[id := c], outside - multiset{c};
    }

    /**
     Track a process: the context already tracked for the id if it is a process's, NULL if it is a
     thread's, the id is out of range or an allocation failed, otherwise a new context with an empty thread list.
     */
    method TrackProcess(id: nat, isSystem: bool) returns (p: Ctx)
      requires Valid() && Settled(Now()) && (isSystem && id !in table ==> system == 0 && !systemHeld)
      modifies this`failures, this`table, this`contexts, this`outside, this`deferred, this`next, this`system, this`systemHeld
      ensures Valid() && Settled(Now())
      ensures id in old(table) ==> old(table)[id] in old(contexts)
      ensures id in old(table) ==>
        p == (if old(contexts)[old(table)[id]].Process? then old(table)[id] else 0)
        && Now() == if p == 0 then old(Now()) else Referenced(old(Now()), p)
      ensures id !in old(table) && p == 0 ==> Now() == old(Now())
      ensures id !in old(table) && p != 0 ==>
        && id < CID_MAX && p == old(next) && next == p + 1 && deferred == old(deferred)
        && table == old(table)[id := p] && contexts.Keys == old(contexts).Keys + {p}
        && (system, systemHeld) == if isSystem then (p, true) else (old(system), old(systemHeld))
      ensures id !in old(table) && p != 0 ==> forall c :: c in contexts ==>
        Links(contexts[c]) == if c == p then Process(id, 0, [], 0, 0, 0) else Links(old(contexts)[c])
      ensures p != 0 ==> outside == old(outside) + multiset{p}
      ensures id !in old(table) ==> (p == 0 <==> id >= CID_MAX || failures > old(failures))
    {
      hide Inv, SettledBut;
      if id >= CID_MAX {
        IdInRange(Now(), id);
        return 0;
      }
      if id in table {
        TrackedFacts(Now(), id);
        p := LookupContext(id, ProcessKind);
        return;
      }
      if * {
        failures := failures + 1;
        return 0;
      }
      p := CreateProcess(id, isSystem);
      if p != 0 {
        assert Links(contexts[p]).id == id;
        AssignEntry(id, p);
      }
    }

    /** Track a thread: likewise, a new context being linked to the context of process `pid` if there is one. */
    method TrackThread(id: nat, pid: nat, queues: bool) returns (t: Ctx, apc: bool, ghost p: Ctx)
      requires Valid() && Settled(Now())
      modifies this`failures, this`table, this`contexts, this`outside, this`deferred, this`next
      ensures Valid() && Settled(Now())
      ensures id in old(table) ==> old(table)[id] in old(contexts)
      ensures id in old(table) ==>
        t == (if old(contexts)[old(table)[id]].Thread? then old(table)[id] else 0)
        && Now() == if t == 0 then old(Now()) else Referenced(old(Now()), t)
      ensures p == if pid in old(table) && old(table)[pid] in old(contexts) && old(contexts)[old(table)[pid]].Process?
                   then old(table)[pid] else 0
      ensures id !in old(table) && t == 0 ==> Now() == old(Now())
      ensures id !in old(table) && t != 0 ==>
        && id < CID_MAX && t == old(next) && next == t + 1
        && table == old(table)[id := t] && contexts.Keys == old(contexts).Keys + {t} && t !in old(contexts)
      ensures id !in old(table) && t != 0 ==>
        forall c :: c in contexts ==> Links(contexts[c]) == ThreadLinked(old(contexts), t, id, p, c)
      ensures t != 0 ==> outside == old(outside) + multiset{t} + (if apc then multiset{t} else multiset{})
      ensures id !in old(table) ==> (t == 0 <==> id >= CID_MAX || failures > old(failures))
      ensures apc <==> queues && id !in old(table) && t != 0
    {
      hide Inv, SettledBut;
      p := if pid in table && table[pid] in contexts && contexts[table[pid]].Process? then table[pid] else 0;
      apc := false;
      if id >= CID_MAX {
        IdInRange(Now(), id);
        return 0, false, p;
      }
      if id in table {
        TrackedFacts(Now(), id);
        t := LookupContext(id, ThreadKind);
        return;
      }
      if * {
        failures := failures + 1;
        return 0, false, p;
      }
      ghost var q: Ctx;
      t, apc, q := CreateThread(id, pid, queues);
      assert q == p;
      if t != 0 {
        assert Links(contexts[t]).id == id;
        AssignEntry(id, t);
      }
    }

    /** The deletion worker's step for one context, with the assertions its delete procedure makes. */
    method DeleteNext() returns (c: Ctx)
      requires Valid() && Settled(Now()) && deferred != {}
      modifies this`contexts, this`deferred, this`deleted, this`outside
      ensures Valid() && Settled(Now()) && outside == old(outside)
      ensures c in old(deferred) && c in old(contexts) && deleted == old(deleted) + [c]
      ensures contexts.Keys == old(contexts).Keys - {c}
      ensures forall x :: x in contexts ==> Links(contexts[x]) == Links(old(contexts)[x])
    {
      hide Inv, SettledBut;
      c :| c in deferred;
      ghost var s := Now();
      DeletedIsUnlinked(s, c);
      if contexts[c].Thread? {
        assert !contexts[c].inList;
      } else {
        assert contexts[c].threads == [] && contexts[c].number == 0;
      }
      ForgottenKeeps(Now(), c);
      ForgottenSettles(Now(), c);
      var released := if contexts[c].Thread? then contexts[c].process else 0;
      deleted := deleted + [c];
      contexts, deferred := contexts - {c}, deferred - {c};
      if released != 0 {
        outside := outside + multiset{released};
        assert Now() == Forgotten(s, c);
        Dereference(released);
      } else {
        assert Now() == Forgotten(s, c);
      }
    }

    /** Let the deletion worker run until nothing awaits deletion. */
    method Drain()
      requires Valid() && Settled(Now())
      modifies this`contexts, this`deferred, this`deleted, this`outside
      ensures Valid() && Settled(Now()) && outside == old(outside) && deferred == {}
      ensures contexts.Keys <= old(contexts).Keys && old(deleted) <= deleted
      ensures forall x :: x in contexts ==> Links(contexts[x]) == Links(old(contexts)[x])
    {
      hide Inv, SettledBut;
      while deferred != {}
        invariant Valid() && Settled(Now()) && outside == old(outside)
        invariant contexts.Keys <= old(contexts).Keys && old(deleted) <= deleted
        invariant forall x :: x in contexts ==> Links(contexts[x]) == Links(old(contexts)[x])
        decreases contexts.Keys
      {
        var c := DeleteNext();
      }
    }

    /**
     Unload: run the table down in id order, unlinking each process, and give up the System pointer's
     reference. With no references outside, the deletion worker then deletes every context.
     */
    method Cleanup()
      requires Running()
      modifies this`table, this`contexts, this`deferred, this`outside, this`systemHeld
      ensures Valid() && Settled(Now()) && outside == old(outside) && table == map[] && !systemHeld
      ensures contexts.Keys == old(contexts).Keys
      ensures forall c :: c in contexts && contexts[c].Thread? && outside[c] == 0 ==> contexts[c].count == 0
    {
      hide Inv, SettledBut, OnlyThreads;
      ghost var x: set<Ctx> := {};
      NoneYet(Now());
      var id := 0;
      while id < CID_MAX
        invariant 0 <= id <= CID_MAX
        invariant Valid() && SettledBut(Now(), x) && OnlyThreads(contexts, x) && outside == old(outside)
        invariant systemHeld <==> system != 0
        invariant contexts.Keys == old(contexts).Keys
        invariant forall i :: i in table ==> id <= i
      {
        x := CleanupEntry(id, x);
        id := id + 1;
      }
      RundownSettles(Now(), x);
      if system != 0 {
        ReleaseSystem();
      }
      UntrackedThreadsGone(Now());
    }

    /** Cleanup and then the deletion worker: with no reference left outside, no context survives the driver. */
    method Unload()
      requires Running()
      modifies this`table, this`contexts, this`deferred, this`deleted, this`outside, this`systemHeld
      ensures Valid() && Settled(Now()) && outside == old(outside) && table == map[] && deferred == {} && !systemHeld
      ensures outside == multiset{} ==>
        contexts == map[] && Distinct(deleted) && forall c :: c in deleted <==> 0 < c < next
    {
      Cleanup();
      Drain();
      if outside == multiset{} {
        AllGone(Now());
      }
    }

    method ReleaseSystem()
      requires Valid() && Settled(Now()) && systemHeld
      modifies this`contexts, this`deferred, this`outside, this`systemHeld
      ensures Valid() && Settled(Now()) && outside == old(outside) && !systemHeld && contexts.Keys == old(contexts).Keys
    {
      hide Inv, SettledBut;
      SystemReleasedKeeps(Now());
      SystemReleasedSettles(Now(), {});
      systemHeld, outside := false, outside + multiset{system};
      Dereference(system);
    }

    /** Move the entry's object out, unlink it if it is a process, and give up the entry's reference. */
    method CleanupEntry(id: nat, ghost x: set<Ctx>) returns (ghost x': set<Ctx>)
      requires Valid() && SettledBut(Now(), x) && OnlyThreads(contexts, x)
      modifies this`table, this`contexts, this`deferred, this`outside
      ensures Valid() && SettledBut(Now(), x') && OnlyThreads(contexts, x') && outside == old(outside)
      ensures table == old(table) - {id} && contexts.Keys == old(contexts).Keys
    {
      hide Inv, SettledBut;
      x' := x;
      if id !in table {
        return;
      }
      var c := table[id];
      EmptyEntry(id, x);
      if contexts[c].Process? {
        RundownProcess(c, x);
      } else {
        x' := x + {c};
      }
      Dereference(c);
    }

    method RundownProcess(p: Ctx, ghost x: set<Ctx>)
      requires Valid() && SettledBut(Now(), x + {p}) && OnlyThreads(contexts, x) && p in contexts && contexts[p].Process?
      modifies this`contexts, this`outside, this`deferred
      ensures Valid() && SettledBut(Now(), x) && OnlyThreads(contexts, x) && outside == old(outside)
      ensures contexts.Keys == old(contexts).Keys
    {
      hide Inv, SettledBut;
      ghost var before := contexts;
      assert x + {p} - {p} == x;
      UnlinkThreads(p, x + {p});
      KindsKept(before, contexts, p);
    }
  }

  // ---- whole lives of the tracking ----

  /** What happens while the driver runs: notifications, lookups, references given up, deletions. */
  datatype Call =
    | TrackProcess(id: nat, isSystem: bool)
    | TrackThread(id: nat, pid: nat, queues: bool)
    | UntrackProcess(id: nat)
    | UntrackThread(id: nat)
    | Lookup(id: nat, kind: Kind)
    | Duplicate(c: Ctx)
    | GiveUp(c: Ctx)
    | Delete

  function NotNull(c: Ctx): multiset<Ctx> {
    if c == 0 then multiset{} else multiset{c}
  }

  /** The owner of the references `held` knows every reference there is outside. */
  ghost predicate Owns(tracker: Tracker, held: multiset<Ctx>)
    reads tracker
  {
    tracker.Running() && held == tracker.outside
  }

  /** A notification that a process began; one process at most is System. */
  method PerformTrackProcess(tracker: Tracker, id: nat, isSystem: bool, held: multiset<Ctx>) returns (held': multiset<Ctx>)
    requires Owns(tracker, held)
    modifies tracker
    ensures Owns(tracker, held')
  {
    hide Inv, SettledBut, Links;
    var p := tracker.TrackProcess(id, isSystem && tracker.system == 0);
    held' := held + NotNull(p);
  }

  /** A notification that a thread began; the APC queued to it owns a reference too. */
  method PerformTrackThread(tracker: Tracker, id: nat, pid: nat, queues: bool, held: multiset<Ctx>) returns (held': multiset<Ctx>)
    requires Owns(tracker, held)
    modifies tracker
    ensures Owns(tracker, held')
  {
    hide Inv, SettledBut, Links, ThreadLinked;
    var t, apc, p := tracker.TrackThread(id, pid, queues);
    held' := held + NotNull(t) + if apc then NotNull(t) else multiset{};
  }

  /** A notification that one ended. */
  method PerformUntrack(tracker: Tracker, call: Call, held: multiset<Ctx>) returns (held': multiset<Ctx>)
    requires Owns(tracker, held) && (call.UntrackProcess? || call.UntrackThread?)
    modifies tracker
    ensures Owns(tracker, held')
  {
    hide Inv, SettledBut, Links, ThreadUnlinked, ProcessUnlinked;
    var c: Ctx;
    if call.UntrackProcess? {
      c := tracker.UntrackProcess(call.id);
    } else {
      c := tracker.UntrackThread(call.id);
    }
    held' := held + NotNull(c);
  }

  /** A lookup, or an owned reference duplicated or given up. */
  method PerformReference(tracker: Tracker, call: Call, held: multiset<Ctx>) returns (held': multiset<Ctx>)
    requires Owns(tracker, held) && (call.Lookup? || call.Duplicate? || call.GiveUp?)
    modifies tracker
    ensures Owns(tracker, held')
  {
    hide Inv, SettledBut, SameLinks;
    held' := held;
    match call
    case Lookup(id, kind) =>
      var c := tracker.LookupContext(id, kind);
      held' := held + NotNull(c);
    case Duplicate(c) =>
      if c in held {
        LiveOutside(tracker.Now(), c);
        tracker.Reference(c);
        held' := held + multiset{c};
      }
    case GiveUp(c) =>
      if c in held {
        tracker.Dereference(c);
        held' := held - multiset{c};
      }
  }

  /** One call by the owner of the references `held`, and what it owns afterwards. */
  method Perform(tracker: Tracker, call: Call, held: multiset<Ctx>) returns (held': multiset<Ctx>)
    requires Owns(tracker, held)
    modifies tracker
    ensures Owns(tracker, held')
  {
    if call.TrackProcess? {
      held' := PerformTrackProcess(tracker, call.id, call.isSystem, held);
    } else if call.TrackThread? {
      held' := PerformTrackThread(tracker, call.id, call.pid, call.queues, held);
    } else if call.UntrackProcess? || call.UntrackThread? {
      held' := PerformUntrack(tracker, call, held);
    } else if call.Delete? {
      held' := held;
      if tracker.deferred != {} {
        hide Inv, SettledBut, Links;
        var c := tracker.DeleteNext();
      }
    } else {
      held' := PerformReference(tracker, call, held);
    }
  }

  /** Give up every reference owned, in any order. */
  method GiveUpAll(tracker: Tracker, held: multiset<Ctx>)
    requires tracker.Valid() && Settled(tracker.Now()) && held == tracker.outside
    modifies tracker`contexts, tracker`outside, tracker`deferred
    ensures tracker.Valid() && Settled(tracker.Now()) && tracker.outside == multiset{}
  {
    hide Inv, SettledBut;
    var left := held;
    while left != multiset{}
      invariant tracker.Valid() && Settled(tracker.Now()) && left == tracker.outside
      decreases left
    {
      var c :| c in left;
      tracker.Dereference(c);
      left := left - multiset{c};
    }
  }

  /**
   The tracking from load to unload, over any calls: unload leaves no context (`left`) if nothing is
   `owned` outside by then, and in any case every context ever made is deleted, once, when what was
   still owned has been given up.
   */
  method Life(calls: seq<Call>) returns (tracker: Tracker, ghost owned: multiset<Ctx>, ghost left: set<Ctx>)
    ensures owned == multiset{} ==> left == {}
    ensures fresh(tracker) && tracker.contexts == map[] && Distinct(tracker.deleted)
    ensures forall c :: c in tracker.deleted <==> 0 < c < tracker.next
  {
    hide Inv, SettledBut;
    tracker := new Tracker();
    var held: multiset<Ctx> := multiset{};
    var i := 0;
    while i < |calls|
      invariant 0 <= i <= |calls|
      invariant fresh(tracker) && Owns(tracker, held)
    {
      held := Perform(tracker, calls[i], held);
      i := i + 1;
    }
    tracker.Unload();
    hide Settled;
    owned, left := held, tracker.contexts.Keys;
    GiveUpAll(tracker, held);
    tracker.Drain();
    AllGone(tracker.Now());
  }
}
