/**
 The global file name cache: operations on file objects look a name up, create an entry when there
 is none, insert it unless they lost a race, and the completion of a close reaps the entry. Each
 section under the cache's lock is one step.
 */
module FileNameCache {
  import opened Basics
  import opened Runs
  import opened Tally

  type File = nat
  type EntryId = nat

  datatype Entry = Entry(file: File, count: int)

  datatype Pc =
    | Idle
    | Lookup
    | Create
    | Insert(own: EntryId)
    | DropOwn(own: EntryId, winner: EntryId)
    | Holding(entry: EntryId)
    | PreExit
    | PostOp
    | Dropping(entry: EntryId)

  /** A thread in an operation on `file`; `close` for IRP_MJ_CLOSE, whose post operation always runs. */
  datatype Thread = Thread(pc: Pc, file: File, close: bool)

  datatype State = State(
    list: seq<EntryId>,
    entries: map<EntryId, Entry>,
    threads: seq<Thread>,
    open: set<File>,
    created: set<EntryId>,
    freed: seq<EntryId>)

  /** The first entry in the list for the file object. */
  function Find(list: seq<EntryId>, entries: map<EntryId, Entry>, f: File): Option<EntryId> {
    if list == [] then None
    else if list[0] in entries && entries[list[0]].file == f then Some(list[0])
    else Find(list[1..], entries, f)
  }

  function Unlink(list: seq<EntryId>, e: EntryId): seq<EntryId> {
    if list == [] then [] else if list[0] == e then list[1..] else [list[0]] + Unlink(list[1..], e)
  }

  datatype Step =
    | Open(file: File)
    | Start(t: nat, file: File, close: bool, named: bool)
    | LookUp(t: nat)
    | CreateEntry(t: nat, ok: bool, id: EntryId)
    | InsertEntry(t: nat)
    | DropLoser(t: nat)
    | Release(t: nat)
    | Exit(t: nat)
    | Reap(t: nat)
    | DropReaped(t: nat)
    | CleanupOne

  /** An operation on the file object is in flight. */
  predicate Busy(s: State, f: File) {
    exists t :: 0 <= t < |s.threads| && !s.threads[t].pc.Idle? && s.threads[t].file == f
  }

  predicate Enabled(s: State, e: Step) {
    match e
    // a file object's memory is reused only when nothing refers to the old one any more
    case Open(f) => f !in s.open && !Busy(s, f)
    // a close is the last operation on its file object and the only one in flight
    case Start(t, f, close, _) =>
      t < |s.threads| && s.threads[t].pc.Idle? && f in s.open && (close ==> !Busy(s, f))
    case LookUp(t) => t < |s.threads| && s.threads[t].pc.Lookup?
    case CreateEntry(t, ok, id) => t < |s.threads| && s.threads[t].pc.Create? && (ok ==> id !in s.created)
    case InsertEntry(t) => t < |s.threads| && s.threads[t].pc.Insert?
    case DropLoser(t) => t < |s.threads| && s.threads[t].pc.DropOwn?
    case Release(t) => t < |s.threads| && s.threads[t].pc.Holding?
    case Exit(t) => t < |s.threads| && s.threads[t].pc.PreExit?
    case Reap(t) => t < |s.threads| && s.threads[t].pc.PostOp?
    case DropReaped(t) => t < |s.threads| && s.threads[t].pc.Dropping?
    case CleanupOne => s.list != [] && forall t :: 0 <= t < |s.threads| ==> s.threads[t].pc.Idle?
  }

  function Referenced(s: State, e: EntryId): State {
    if e in s.entries then s.(entries := s.entries[e := s.entries[e].(count := s.entries[e].count + 1)]) else s
  }

  function Dereferenced(s: State, e: EntryId): State {
    if e !in s.entries then s
    else if s.entries[e].count == 1 then s.(entries := s.entries - {e}, freed := s.freed + [e])
    else s.(entries := s.entries[e := s.entries[e].(count := s.entries[e].count - 1)])
  }

  function SetPc(s: State, t: nat, pc: Pc): State
    requires t < |s.threads|
  {
    s.(threads := s.threads[t := s.threads[t].(pc := pc)])
  }

  function After(s: State, e: Step): State
    requires Enabled(s, e)
  {
    match e
    case Open(f) => s.(open := s.open + {f})
    case Start(t, f, close, named) =>
      s.(threads := s.threads[t := Thread(if named then Lookup else PreExit, f, close)],
         open := if close then s.open - {f} else s.open)
    case LookUp(t) =>
      (match Find(s.list, s.entries, s.threads[t].file)
       case Some(found) => SetPc(Referenced(s, found), t, Holding(found))
       case None => SetPc(s, t, Create))
    case CreateEntry(t, ok, id) =>
      if ok then
        SetPc(s, t, Insert(id)).(entries := s.entries[id := Entry(s.threads[t].file, 1)], created := s.created + {id})
      else SetPc(s, t, PreExit)
    case InsertEntry(t) =>
      var own := s.threads[t].pc.own;
      (match Find(s.list, s.entries, s.threads[t].file)
       case Some(found) => SetPc(Referenced(s, found), t, DropOwn(own, found))
       case None => SetPc(Referenced(s, own), t, Holding(own)).(list := [own] + s.list))
    case DropLoser(t) => SetPc(Dereferenced(s, s.threads[t].pc.own), t, Holding(s.threads[t].pc.winner))
    case Release(t) => SetPc(Dereferenced(s, s.threads[t].pc.entry), t, PreExit)
    case Exit(t) => SetPc(s, t, if s.threads[t].close then PostOp else Idle)
    case Reap(t) =>
      (match Find(s.list, s.entries, s.threads[t].file)
       case Some(found) => SetPc(s, t, Dropping(found)).(list := Unlink(s.list, found))
       case None => SetPc(s, t, Idle))
    case DropReaped(t) => SetPc(Dereferenced(s, s.threads[t].pc.entry), t, Idle)
    case CleanupOne => Dereferenced(s.(list := s.list[1..]), s.list[0])
  }

  ghost predicate Next(s: State, s': State) {
    exists e :: Enabled(s, e) && s' == After(s, e)
  }

  ghost predicate Init(s: State) {
    && s.list == [] && s.entries == map[] && s.open == {} && s.created == {} && s.freed == []
    && forall t :: 0 <= t < |s.threads| ==> s.threads[t].pc.Idle?
  }

  // ---- references ----

  /** References a thread owns to an entry. */
  function Owns(e: EntryId, th: Thread): nat {
    match th.pc
    case Insert(own) => if own == e then 1 else 0
    case DropOwn(own, winner) => (if own == e then 1 else 0) + (if winner == e then 1 else 0)
    case Holding(entry) => if entry == e then 1 else 0
    case Dropping(entry) => if entry == e then 1 else 0
    case _ => 0
  }

  function InList(e: EntryId, x: EntryId): nat {
    if x == e then 1 else 0
  }

  function References(s: State, e: EntryId): nat {
    Total(s.list, InList, e) + Total(s.threads, Owns, e)
  }

  // ---- invariant ----

  /** Every entry's count is the list's reference plus the threads'; what nobody references is gone. */
  ghost predicate Counted(s: State) {
    forall e :: (e in s.entries <==> References(s, e) > 0) && (e in s.entries ==> s.entries[e].count == References(s, e))
  }

  ghost predicate Accounted(s: State) {
    && (forall e :: e in s.created <==> e in s.entries || e in s.freed)
    && (forall e :: e in s.freed ==> e !in s.entries)
    && (forall i, j :: 0 <= i < j < |s.freed| ==> s.freed[i] != s.freed[j])
  }

  /** At most one entry per file object. */
  ghost predicate OnePerFile(s: State) {
    && (forall i :: 0 <= i < |s.list| ==> s.list[i] in s.entries)
    && (forall i, j :: 0 <= i < j < |s.list| ==> s.entries[s.list[i]].file != s.entries[s.list[j]].file)
  }

  /** Every entry a thread references, its own, a winner's or a looked-up one, is for its own file object. */
  ghost predicate OwnFile(s: State) {
    forall t, e {:trigger Owns(e, s.threads[t])} :: 0 <= t < |s.threads| && Owns(e, s.threads[t]) > 0 ==>
      e in s.entries && s.entries[e].file == s.threads[t].file
  }

  lemma InsertsOwnFile(s: State, t: nat)
    requires OwnFile(s) && t < |s.threads| && s.threads[t].pc.Insert?
    ensures s.threads[t].pc.own in s.entries && s.entries[s.threads[t].pc.own].file == s.threads[t].file
  {
    assert Owns(s.threads[t].pc.own, s.threads[t]) > 0;
  }

  /** The thread works on its file object and has not reaped it yet. */
  predicate Active(th: Thread) {
    !th.pc.Idle? && !th.pc.Dropping?
  }

  predicate Closing(th: Thread) {
    !th.pc.Idle? && th.close
  }

  /** Operations are on open file objects, or are the one close of theirs. */
  ghost predicate FilesOk(s: State) {
    && (forall t :: 0 <= t < |s.threads| && !s.threads[t].pc.Idle? && !s.threads[t].close ==>
          s.threads[t].file in s.open && !s.threads[t].pc.PostOp? && !s.threads[t].pc.Dropping?)
    && (forall t, u :: 0 <= t < |s.threads| && 0 <= u < |s.threads| && t != u && Closing(s.threads[t]) ==>
          s.threads[u].pc.Idle? || s.threads[u].file != s.threads[t].file)
    && (forall t :: 0 <= t < |s.threads| && Closing(s.threads[t]) ==> s.threads[t].file !in s.open)
  }

  /** An entry in the list is for a file object that is open or whose close has yet to reap. */
  ghost predicate EntryLive(s: State, f: File) {
    f in s.open || exists t :: 0 <= t < |s.threads| && Active(s.threads[t]) && s.threads[t].close && s.threads[t].file == f
  }

  ghost predicate ListLive(s: State) {
    forall i :: 0 <= i < |s.list| ==> s.list[i] in s.entries && EntryLive(s, s.entries[s.list[i]].file)
  }

  ghost predicate Inv(s: State) {
    Counted(s) && Accounted(s) && OnePerFile(s) && OwnFile(s) && FilesOk(s) && ListLive(s)
  }

  // ---- the list ----

  lemma {:induction false} FindMeans(list: seq<EntryId>, entries: map<EntryId, Entry>, f: File)
    ensures
      match Find(list, entries, f)
      case Some(e) => e in list && e in entries && entries[e].file == f
      case None => forall i :: 0 <= i < |list| ==> !(list[i] in entries && entries[list[i]].file == f)
  {
    if list != [] {
      FindMeans(list[1..], entries, f);
    }
  }

  ghost predicate Separate(list: seq<EntryId>, entries: map<EntryId, Entry>) {
    && (forall i :: 0 <= i < |list| ==> list[i] in entries)
    && (forall i, j :: 0 <= i < j < |list| ==> entries[list[i]].file != entries[list[j]].file)
  }

  lemma {:induction false} UnlinkMeans(list: seq<EntryId>, entries: map<EntryId, Entry>, e: EntryId)
    requires Separate(list, entries) && e in list
    ensures Separate(Unlink(list, e), entries)
    ensures forall x :: x in Unlink(list, e) <==> x in list && x != e
    ensures forall x :: Total(Unlink(list, e), InList, x) == Total(list, InList, x) - InList(x, e)
  {
    assert list == [list[0]] + list[1..];
    if list[0] == e {
    } else {
      UnlinkMeans(list[1..], entries, e);
      var rest := Unlink(list[1..], e);
      forall i, j | 0 <= i < j < |rest| + 1
        ensures entries[([list[0]] + rest)[i]].file != entries[([list[0]] + rest)[j]].file
      {
        assert rest[j - 1] in rest;
      }
      forall x ensures Total(Unlink(list, e), InList, x) == Total(list, InList, x) - InList(x, e) {
        assert Unlink(list, e)[1..] == rest;
      }
    }
  }

  // ---- counting ----

  lemma CountedSame(s: State, s': State)
    requires Counted(s) && s'.entries == s.entries && forall e :: References(s', e) == References(s, e)
    ensures Counted(s')
  {
  }

  lemma CountedUp(s: State, s': State, x: EntryId)
    requires Counted(s) && x in s.entries && s'.entries == Referenced(s, x).entries
    requires forall e :: References(s', e) == References(s, e) + (if e == x then 1 else 0)
    ensures Counted(s')
  {
    hide References;
  }

  lemma CountedDown(s: State, s': State, x: EntryId)
    requires Counted(s) && x in s.entries && s'.entries == Dereferenced(s, x).entries
    requires forall e :: References(s', e) == References(s, e) - (if e == x then 1 else 0)
    ensures Counted(s')
  {
    hide References;
  }

  lemma OwnedIsLive(s: State, t: nat, e: EntryId)
    requires Counted(s) && t < |s.threads| && Owns(e, s.threads[t]) > 0
    ensures e in s.entries
  {
    TotalAtLeast(s.threads, t, Owns, e);
  }

  /** A step of thread `t` changes the references by that thread's and the list's change. */
  lemma ThreadMoves(s: State, s': State, t: nat)
    requires t < |s.threads| == |s'.threads| && s'.threads == s.threads[t := s'.threads[t]]
    ensures forall e :: References(s', e) + Total(s.list, InList, e) + Owns(e, s.threads[t])
                     == References(s, e) + Total(s'.list, InList, e) + Owns(e, s'.threads[t])
  {
    TotalUpdateAll(s.threads, t, s'.threads[t], Owns);
  }

  lemma HeadCounts(x: EntryId, list: seq<EntryId>)
    ensures forall e :: Total([x] + list, InList, e) == Total(list, InList, e) + InList(e, x)
  {
    assert ([x] + list)[1..] == list;
  }

  lemma CountedLookUp(s: State, t: nat)
    requires Counted(s) && t < |s.threads| && s.threads[t].pc.Lookup?
    ensures Counted(After(s, LookUp(t)))
  {
    hide Find;
    var s' := After(s, LookUp(t));
    FindMeans(s.list, s.entries, s.threads[t].file);
    ThreadMoves(s, s', t);
    var found := Find(s.list, s.entries, s.threads[t].file);
    hide References;
    if found.Some? {
      CountedUp(s, s', found.value);
    } else {
      CountedSame(s, s');
    }
  }

  lemma CountedCreate(s: State, e: Step)
    requires Counted(s) && Accounted(s) && Enabled(s, e) && e.CreateEntry?
    ensures Counted(After(s, e))
  {
    var s' := After(s, e);
    ThreadMoves(s, s', e.t);
    if e.ok {
      assert e.id !in s.entries && References(s, e.id) == 0;
    }
    hide References;
  }

  /** The loser of a race keeps its own entry for now and shares the winner's. */
  lemma CountedLoser(s: State, t: nat, found: EntryId)
    requires Counted(s) && t < |s.threads| && s.threads[t].pc.Insert? && found in s.entries
    requires Find(s.list, s.entries, s.threads[t].file) == Some(found)
    ensures Counted(After(s, InsertEntry(t)))
  {
    hide Find;
    var s' := After(s, InsertEntry(t));
    ThreadMoves(s, s', t);
    assert s'.list == s.list && s'.entries == Referenced(s, found).entries;
    assert forall y :: Owns(y, s'.threads[t]) == Owns(y, s.threads[t]) + (if y == found then 1 else 0);
    hide References, After, Enabled, Referenced, Owns;
    CountedUp(s, s', found);
  }

  /** The winner's entry gets the list's reference beside its own. */
  lemma CountedWinner(s: State, t: nat)
    requires Counted(s) && t < |s.threads| && s.threads[t].pc.Insert? && s.threads[t].pc.own in s.entries
    requires Find(s.list, s.entries, s.threads[t].file) == None
    ensures Counted(After(s, InsertEntry(t)))
  {
    hide Find;
    var s' := After(s, InsertEntry(t));
    var own := s.threads[t].pc.own;
    ThreadMoves(s, s', t);
    HeadCounts(own, s.list);
    assert s'.entries == Referenced(s, own).entries && Owns(own, s'.threads[t]) == 1;
    hide References, After, Enabled, Referenced;
    CountedUp(s, s', own);
  }

  lemma CountedInsert(s: State, t: nat)
    requires Counted(s) && t < |s.threads| && s.threads[t].pc.Insert?
    ensures Counted(After(s, InsertEntry(t)))
  {
    OwnedIsLive(s, t, s.threads[t].pc.own);
    FindMeans(s.list, s.entries, s.threads[t].file);
    hide Counted, After, Find;
    var found := Find(s.list, s.entries, s.threads[t].file);
    if found.Some? {
      CountedLoser(s, t, found.value);
    } else {
      CountedWinner(s, t);
    }
  }

  lemma CountedDrop(s: State, e: Step)
    requires Counted(s) && Enabled(s, e) && (e.DropLoser? || e.Release? || e.DropReaped?)
    ensures Counted(After(s, e))
  {
    var s' := After(s, e);
    var x := if e.DropLoser? then s.threads[e.t].pc.own else s.threads[e.t].pc.entry;
    OwnedIsLive(s, e.t, x);
    ThreadMoves(s, s', e.t);
    assert s'.list == s.list && s'.entries == Dereferenced(s, x).entries;
    assert forall y :: Owns(y, s'.threads[e.t]) == Owns(y, s.threads[e.t]) - (if y == x then 1 else 0);
    hide References, After, Enabled, Owns, Dereferenced;
    CountedDown(s, s', x);
  }

  lemma CountedReap(s: State, t: nat)
    requires Counted(s) && OnePerFile(s) && t < |s.threads| && s.threads[t].pc.PostOp?
    ensures Counted(After(s, Reap(t)))
  {
    hide Find;
    var s' := After(s, Reap(t));
    FindMeans(s.list, s.entries, s.threads[t].file);
    var found := Find(s.list, s.entries, s.threads[t].file);
    ThreadMoves(s, s', t);
    if found.Some? {
      UnlinkMeans(s.list, s.entries, found.value);
    }
    assert s'.entries == s.entries;
    hide Unlink, OnePerFile, References, After, Enabled, Separate;
    ReapBalances(s, s', t, found);
    CountedSame(s, s');
  }

  lemma ReapBalances(s: State, s': State, t: nat, found: Option<EntryId>)
    requires t < |s.threads| == |s'.threads| && s.threads[t].pc.PostOp?
    requires s'.threads[t].pc == if found.Some? then Dropping(found.value) else Idle
    requires forall e ::
      Total(s'.list, InList, e) == Total(s.list, InList, e) - (if found.Some? then InList(e, found.value) else 0)
    requires forall e :: References(s', e) + Total(s.list, InList, e) + Owns(e, s.threads[t])
                      == References(s, e) + Total(s'.list, InList, e) + Owns(e, s'.threads[t])
    ensures forall e :: References(s', e) == References(s, e)
  {
    hide References;
  }

  lemma CountedCleanup(s: State)
    requires Counted(s) && OnePerFile(s) && Enabled(s, CleanupOne)
    ensures Counted(After(s, CleanupOne))
  {
    var s' := After(s, CleanupOne);
    assert s.list[0] in s.entries;
    CountedDown(s, s', s.list[0]);
  }

  lemma CountedKept(s: State, e: Step)
    requires Inv(s) && Enabled(s, e)
    ensures Counted(After(s, e))
  {
    hide Counted, Accounted, OwnFile, FilesOk, ListLive, OnePerFile, References;
    match e
    case LookUp(t) => CountedLookUp(s, t);
    case CreateEntry(_, _, _) => CountedCreate(s, e);
    case InsertEntry(t) => CountedInsert(s, t);
    case DropLoser(_) => CountedDrop(s, e);
    case Release(_) => CountedDrop(s, e);
    case DropReaped(_) => CountedDrop(s, e);
    case Reap(t) => CountedReap(s, t);
    case CleanupOne => CountedCleanup(s);
    case Open(_) => CountedOpen(s, e);
    case Start(t, _, _, _) => CountedQuiet(s, e);
    case Exit(t) => CountedQuiet(s, e);
  }

  lemma CountedOpen(s: State, e: Step)
    requires Counted(s) && Enabled(s, e) && e.Open?
    ensures Counted(After(s, e))
  {
  }

  lemma CountedQuiet(s: State, e: Step)
    requires Counted(s) && Enabled(s, e) && (e.Start? || e.Exit?)
    ensures Counted(After(s, e))
  {
    ThreadMoves(s, After(s, e), e.t);
    CountedSame(s, After(s, e));
  }

  // ---- the other parts of the invariant ----

  /** No step changes which file object an entry is for. */
  lemma FilesSame(s: State, e: Step)
    requires Accounted(s) && Enabled(s, e)
    ensures forall x :: x in s.entries && x in After(s, e).entries ==> After(s, e).entries[x].file == s.entries[x].file
  {
    hide Accounted;
    assert e.CreateEntry? && e.ok ==> e.id !in s.entries by {
      AccountedMeans(s);
    }
  }

  lemma AccountedMeans(s: State)
    requires Accounted(s)
    ensures forall x :: x in s.entries ==> x in s.created
  {
  }

  lemma ListedIsLive(s: State, i: nat)
    requires Counted(s) && i < |s.list|
    ensures s.list[i] in s.entries
  {
    TotalAtLeast(s.list, i, InList, s.list[i]);
  }

  lemma DereferencedAccounts(s: State, x: EntryId)
    requires Accounted(s) && x in s.entries
    ensures Accounted(Dereferenced(s, x))
  {
  }

  lemma AccountedKept(s: State, e: Step)
    requires Accounted(s) && Enabled(s, e)
    ensures Accounted(After(s, e))
  {
    var freeing := e.DropLoser? || e.Release? || e.DropReaped? || e.CleanupOne?;
    if freeing {
      var s0 := if e.CleanupOne? then s.(list := s.list[1..]) else s;
      var x := if e.CleanupOne? then s.list[0] else if e.DropLoser? then s.threads[e.t].pc.own else s.threads[e.t].pc.entry;
      if x in s.entries {
        DereferencedAccounts(s0, x);
      }
      assert After(s, e).created == s0.created && After(s, e).entries == Dereferenced(s0, x).entries
          && After(s, e).freed == Dereferenced(s0, x).freed;
    }
  }

  /** What a thread references it referenced before, found in the list for its file object, or just created for it. */
  lemma ReferencedStays(s: State, e: Step, u: nat, x: EntryId)
    requires Enabled(s, e) && u < |After(s, e).threads| && Owns(x, After(s, e).threads[u]) > 0
    ensures u < |s.threads| && After(s, e).threads[u].file == s.threads[u].file
    ensures
      || Owns(x, s.threads[u]) > 0
      || (e.CreateEntry? && e.ok && e.t == u && x == e.id)
      || Find(s.list, s.entries, s.threads[u].file) == Some(x)
  {
    hide Find, Unlink;
  }

  lemma CreatedFile(s: State, e: Step)
    requires Enabled(s, e) && e.CreateEntry? && e.ok
    ensures e.id in After(s, e).entries && After(s, e).entries[e.id].file == s.threads[e.t].file
  {
  }

  lemma FileOfReferenced(s: State, e: Step, u: nat, x: EntryId)
    requires OwnFile(s) && Accounted(s) && Enabled(s, e) && x in After(s, e).entries
    requires u < |After(s, e).threads| && Owns(x, After(s, e).threads[u]) > 0
    ensures After(s, e).entries[x].file == After(s, e).threads[u].file
  {
    FilesSame(s, e);
    ReferencedStays(s, e, u, x);
    FindMeans(s.list, s.entries, s.threads[u].file);
    if e.CreateEntry? && e.ok && e.t == u && x == e.id {
      CreatedFile(s, e);
    }
    hide After, Enabled, Accounted, Owns, Find;
  }

  lemma OwnFileKept(s: State, e: Step)
    requires OwnFile(s) && Accounted(s) && Enabled(s, e) && Counted(After(s, e))
    ensures OwnFile(After(s, e))
  {
    var s' := After(s, e);
    forall u: nat, x: EntryId | u < |s'.threads| && Owns(x, s'.threads[u]) > 0
      ensures x in s'.entries && s'.entries[x].file == s'.threads[u].file
    {
      hide After, Accounted, Owns, OwnFile;
      OwnedIsLive(s', u, x);
      hide Counted;
      FileOfReferenced(s, e, u, x);
    }
  }

  lemma SeparateSame(list: seq<EntryId>, a: map<EntryId, Entry>, b: map<EntryId, Entry>)
    requires Separate(list, a) && forall x :: x in list ==> x in b && (x in a ==> b[x].file == a[x].file)
    ensures Separate(list, b)
  {
  }

  lemma SeparateHead(x: EntryId, list: seq<EntryId>, entries: map<EntryId, Entry>)
    requires Separate(list, entries) && x in entries
    requires forall i :: 0 <= i < |list| ==> entries[list[i]].file != entries[x].file
    ensures Separate([x] + list, entries)
  {
  }

  /** The list after the step, over the entries before it. */
  lemma ListKeepsSeparate(s: State, e: Step)
    requires OnePerFile(s) && OwnFile(s) && Enabled(s, e)
    ensures Separate(After(s, e).list, s.entries)
  {
    var s' := After(s, e);
    assert Separate(s.list, s.entries);
    if e.InsertEntry? {
      FindMeans(s.list, s.entries, s.threads[e.t].file);
      if Find(s.list, s.entries, s.threads[e.t].file).None? {
        InsertsOwnFile(s, e.t);
        SeparateHead(s.threads[e.t].pc.own, s.list, s.entries);
      }
    } else if e.Reap? {
      FindMeans(s.list, s.entries, s.threads[e.t].file);
      var found := Find(s.list, s.entries, s.threads[e.t].file);
      if found.Some? {
        UnlinkMeans(s.list, s.entries, found.value);
      }
    } else if e.CleanupOne? {
      assert s'.list == s.list[1..];
    }
    hide Find, Unlink;
  }

  lemma OnePerFileKept(s: State, e: Step)
    requires OnePerFile(s) && OwnFile(s) && Accounted(s) && Enabled(s, e) && Counted(After(s, e))
    ensures OnePerFile(After(s, e))
  {
    var s' := After(s, e);
    FilesSame(s, e);
    ListKeepsSeparate(s, e);
    forall i | 0 <= i < |s'.list| ensures s'.list[i] in s'.entries {
      ListedIsLive(s', i);
    }
    hide Counted, Accounted, OwnFile, Enabled, After;
    SeparateSame(s'.list, s.entries, s'.entries);
  }

  lemma StartKeepsFiles(s: State, e: Step)
    requires FilesOk(s) && Enabled(s, e) && e.Start?
    ensures FilesOk(After(s, e))
  {
    assert forall u :: 0 <= u < |s.threads| && !s.threads[u].pc.Idle? && s.threads[u].file == e.file ==> Busy(s, e.file);
    hide Busy;
  }

  lemma OpenKeepsFiles(s: State, e: Step)
    requires FilesOk(s) && Enabled(s, e) && e.Open?
    ensures FilesOk(After(s, e))
  {
    assert forall u :: 0 <= u < |s.threads| && !s.threads[u].pc.Idle? && s.threads[u].file == e.file ==> Busy(s, e.file);
    hide Busy;
  }

  /** A thread in an operation moves on, without a post operation unless it closes. */
  lemma PcKeepsFiles(s: State, s': State, t: nat, pc: Pc)
    requires FilesOk(s) && t < |s.threads| && !s.threads[t].pc.Idle?
    requires s'.open == s.open && s'.threads == s.threads[t := s.threads[t].(pc := pc)]
    requires !s.threads[t].close ==> !pc.PostOp? && !pc.Dropping?
    ensures FilesOk(s')
  {
  }

  lemma FilesOkKept(s: State, e: Step)
    requires FilesOk(s) && Enabled(s, e)
    ensures FilesOk(After(s, e))
  {
    if e.Start? {
      StartKeepsFiles(s, e);
    } else if e.Open? {
      OpenKeepsFiles(s, e);
    } else if e.CleanupOne? {
      assert After(s, e).threads == s.threads && After(s, e).open == s.open;
    } else {
      assert s.threads[e.t].pc.PostOp? ==> s.threads[e.t].close;
      var s' := After(s, e);
      assert s'.open == s.open && s'.threads == s.threads[e.t := s.threads[e.t].(pc := s'.threads[e.t].pc)];
      hide FilesOk;
      PcKeepsFiles(s, s', e.t, s'.threads[e.t].pc);
    }
  }

  /** A close that has not reaped yet is still there after any step but its own reaping. */
  lemma CloserStays(s: State, e: Step, u: nat)
    requires FilesOk(s) && Enabled(s, e) && u < |s.threads| && Active(s.threads[u]) && s.threads[u].close
    requires e.Reap? ==> e.t != u
    ensures u < |After(s, e).threads| && Active(After(s, e).threads[u]) && After(s, e).threads[u].close
    ensures After(s, e).threads[u].file == s.threads[u].file
  {
    hide Find, Unlink, FilesOk;
  }

  /** A file object leaves the open ones only when its close starts. */
  lemma OpenStays(s: State, e: Step, f: File)
    requires Enabled(s, e) && f in s.open
    ensures EntryLive(After(s, e), f)
  {
    hide Find, Unlink;
    var s' := After(s, e);
    if f !in s'.open {
      assert Active(s'.threads[e.t]) && s'.threads[e.t].close && s'.threads[e.t].file == f;
    }
  }

  /** No step but its own reaping takes a file object's liveness. */
  lemma LiveKept(s: State, e: Step, f: File)
    requires FilesOk(s) && Enabled(s, e) && EntryLive(s, f) && (e.Reap? ==> s.threads[e.t].file != f)
    ensures EntryLive(After(s, e), f)
  {
    if f in s.open {
      OpenStays(s, e, f);
    } else {
      var u: nat :| u < |s.threads| && Active(s.threads[u]) && s.threads[u].close && s.threads[u].file == f;
      CloserStays(s, e, u);
      hide After, Enabled, FilesOk;
    }
  }

  lemma ListLiveReap(s: State, t: nat)
    requires OnePerFile(s) && ListLive(s) && FilesOk(s) && Accounted(s)
    requires t < |s.threads| && s.threads[t].pc.PostOp?
    ensures ListLive(After(s, Reap(t)))
    ensures forall i :: 0 <= i < |After(s, Reap(t)).list| ==>
      After(s, Reap(t)).list[i] in s.entries && s.entries[After(s, Reap(t)).list[i]].file != s.threads[t].file
  {
    var s' := After(s, Reap(t));
    var f := s.threads[t].file;
    FindMeans(s.list, s.entries, f);
    var found := Find(s.list, s.entries, f);
    if found.Some? {
      UnlinkMeans(s.list, s.entries, found.value);
    }
    hide Find, Unlink;
    forall i | 0 <= i < |s'.list|
      ensures s'.list[i] in s'.entries && s'.entries[s'.list[i]].file != f && EntryLive(s', s'.entries[s'.list[i]].file)
    {
      assert s'.list[i] in s.list;
      var j :| 0 <= j < |s.list| && s.list[j] == s'.list[i];
      if found.Some? {
        var k :| 0 <= k < |s.list| && s.list[k] == found.value;
        assert j != k;
      }
      LiveKept(s, Reap(t), s.entries[s'.list[i]].file);
    }
  }

  lemma ListLiveKept(s: State, e: Step)
    requires ListLive(s) && OwnFile(s) && FilesOk(s) && Accounted(s) && Enabled(s, e) && !e.Reap? && Counted(After(s, e))
    ensures ListLive(After(s, e))
  {
    var s' := After(s, e);
    FilesSame(s, e);
    forall i | 0 <= i < |s'.list|
      ensures s'.list[i] in s'.entries && EntryLive(s', s'.entries[s'.list[i]].file)
    {
      ListedIsLive(s', i);
      hide Counted, Accounted, Find;
      if s'.list[i] in s.list {
        var j :| 0 <= j < |s.list| && s.list[j] == s'.list[i];
        LiveKept(s, e, s.entries[s.list[j]].file);
      } else {
        assert e.InsertEntry? && s'.list[i] == s.threads[e.t].pc.own;
        InsertsOwnFile(s, e.t);
        InserterLives(s, s', e);
      }
    }
  }

  lemma InserterLives(s: State, s': State, e: Step)
    requires FilesOk(s) && Enabled(s, e) && e.InsertEntry? && s' == After(s, e)
    ensures EntryLive(s', s.threads[e.t].file)
  {
    hide Find;
    assert s.threads[e.t].close ==> Active(s'.threads[e.t]) && s'.threads[e.t].close && s'.threads[e.t].file == s.threads[e.t].file;
  }

  lemma StepKeepsInv(s: State, s': State)
    requires Inv(s) && Next(s, s')
    ensures Inv(s')
  {
    var e :| Enabled(s, e) && s' == After(s, e);
    hide Counted, Accounted, OnePerFile, OwnFile, FilesOk, ListLive, Enabled, After;
    CountedKept(s, e);
    AccountedKept(s, e);
    OwnFileKept(s, e);
    OnePerFileKept(s, e);
    FilesOkKept(s, e);
    if e.Reap? {
      ReapIsPost(s, e);
      ListLiveReap(s, e.t);
    } else {
      ListLiveKept(s, e);
    }
  }

  lemma ReapIsPost(s: State, e: Step)
    requires Enabled(s, e) && e.Reap?
    ensures e.t < |s.threads| && s.threads[e.t].pc.PostOp? && e == Reap(e.t)
  {
  }

  lemma InvInEveryRun(run: seq<State>, i: nat)
    requires IsRun(run, Init, Next) && i < |run|
    ensures Inv(run[i])
  {
    forall s | Init(s) ensures Inv(s) {
      forall e ensures References(s, e) == 0 { TotalZero(s.threads, Owns, e); }
    }
    forall s, s' | Inv(s) && Next(s, s') ensures Inv(s') { StepKeepsInv(s, s'); }
    hide Inv, Next, Init;
    InvariantOnRun(run, Init, Next, Inv);
  }

  // ---- what every run guarantees ----

  /** In every run: one entry per file object, counts are list and holders, and entries are freed once, when unreferenced. */
  lemma CacheIsSound(run: seq<State>, i: nat)
    requires IsRun(run, Init, Next) && i < |run|
    ensures OnePerFile(run[i])
    ensures forall e :: e in run[i].entries ==> run[i].entries[e].count == References(run[i], e) > 0
    ensures forall e :: e in run[i].created <==> e in run[i].entries || e in run[i].freed
    ensures forall j, k :: 0 <= j < k < |run[i].freed| ==> run[i].freed[j] != run[i].freed[k]
  {
    InvInEveryRun(run, i);
  }

  /** Once a close has reaped, the cache has no entry for its file object until that is opened anew. */
  lemma ClosedIsReaped(run: seq<State>, i: nat, f: File)
    requires IsRun(run, Init, Next) && i < |run| && f !in run[i].open
    requires forall t :: 0 <= t < |run[i].threads| && Active(run[i].threads[t]) ==> run[i].threads[t].file != f
    ensures Find(run[i].list, run[i].entries, f) == None
  {
    InvInEveryRun(run, i);
    FindMeans(run[i].list, run[i].entries, f);
    assert !EntryLive(run[i], f);
    assert forall k :: 0 <= k < |run[i].list| ==> run[i].entries[run[i].list[k]].file != f;
  }

  /** With the cache cleaned up and no operation in flight every entry ever created has been freed. */
  lemma CleanedUpIsEmpty(run: seq<State>, i: nat)
    requires IsRun(run, Init, Next) && i < |run| && run[i].list == []
    requires forall t :: 0 <= t < |run[i].threads| ==> run[i].threads[t].pc.Idle?
    ensures run[i].entries == map[] && forall e :: e in run[i].created <==> e in run[i].freed
  {
    InvInEveryRun(run, i);
    forall e | e in run[i].entries ensures false {
      TotalZero(run[i].threads, Owns, e);
    }
  }

  // ---- the cache as a partial map ----

  /** What the cache says about a file object. */
  function Cached(s: State, f: File): Option<EntryId> {
    Find(s.list, s.entries, f)
  }

  lemma SameListSameMap(list: seq<EntryId>, a: map<EntryId, Entry>, b: map<EntryId, Entry>, f: File)
    requires forall i :: 0 <= i < |list| ==> list[i] in a && list[i] in b && a[list[i]].file == b[list[i]].file
    ensures Find(list, a, f) == Find(list, b, f)
  {
    if list != [] {
      SameListSameMap(list[1..], a, b, f);
    }
  }

  /** Which steps change the list at all, and that they change no other entry's file. */
  lemma QuietStep(s: State, e: Step, f: File)
    requires Inv(s) && Enabled(s, e) && Inv(After(s, e)) && After(s, e).list == s.list
    ensures Cached(After(s, e), f) == Cached(s, f)
  {
    var s' := After(s, e);
    FilesSame(s, e);
    assert OnePerFile(s) && OnePerFile(s');
    hide After, Counted, Accounted, OwnFile, FilesOk, ListLive, Find;
    SameListSameMap(s.list, s.entries, s'.entries, f);
  }

  lemma InsertOnMap(s: State, t: nat, f: File)
    requires Inv(s) && Enabled(s, InsertEntry(t)) && Cached(s, s.threads[t].file).None?
    ensures
      var s' := After(s, InsertEntry(t));
      && s'.threads[t].pc == Holding(s.threads[t].pc.own)
      && Cached(s', f) == if f == s.threads[t].file then Some(s.threads[t].pc.own) else Cached(s, f)
  {
    var s' := After(s, InsertEntry(t));
    var own := s.threads[t].pc.own;
    InsertsOwnFile(s, t);
    assert own in s.entries && s.entries[own].file == s.threads[t].file;
    assert OnePerFile(s);
    assert s'.list == [own] + s.list && s'.list[1..] == s.list && s'.entries == Referenced(s, own).entries;
    hide After, Counted, Accounted, OwnFile, FilesOk, ListLive;
    SameListSameMap(s.list, s.entries, s'.entries, f);
  }

  lemma {:induction false} UnlinkOnMap(list: seq<EntryId>, entries: map<EntryId, Entry>, e: EntryId, f: File)
    requires Separate(list, entries) && e in list
    ensures Find(Unlink(list, e), entries, f) == if f == entries[e].file then None else Find(list, entries, f)
  {
    if list[0] == e {
      FindMeans(list[1..], entries, f);
    } else {
      UnlinkOnMap(list[1..], entries, e, f);
    }
  }

  lemma ReapOnMap(s: State, t: nat, f: File)
    requires Inv(s) && Enabled(s, Reap(t))
    ensures Cached(After(s, Reap(t)), f) == if f == s.threads[t].file then None else Cached(s, f)
  {
    assert OnePerFile(s);
    hide Counted, Accounted, OwnFile, FilesOk, ListLive;
    FindMeans(s.list, s.entries, s.threads[t].file);
    var found := Find(s.list, s.entries, s.threads[t].file);
    if found.Some? {
      UnlinkOnMap(s.list, s.entries, found.value, f);
    }
  }

  /**
   The insert section is an insert-if-absent on the map, with whose value both racers go on; the
   reap section removes the key; every other file's value, and every other step, leaves the map alone.
   */
  lemma StepOnMap(s: State, e: Step, f: File)
    requires Inv(s) && Enabled(s, e) && !e.CleanupOne?
    ensures
      var s' := After(s, e);
      if e.InsertEntry? && s.threads[e.t].file == f then
        && Cached(s', f) == (if Cached(s, f).Some? then Cached(s, f) else Some(s.threads[e.t].pc.own))
        && Cached(s', f) == Some(if s'.threads[e.t].pc.DropOwn? then s'.threads[e.t].pc.winner
                                 else if s'.threads[e.t].pc.Holding? then s'.threads[e.t].pc.entry
                                 else s.threads[e.t].pc.own)
      else if e.Reap? && s.threads[e.t].file == f then Cached(s', f) == None
      else Cached(s', f) == Cached(s, f)
  {
    StepKeepsInv(s, After(s, e));
    hide Inv, Find, Unlink;
    if e.Reap? {
      ReapOnMap(s, e.t, f);
    } else if e.InsertEntry? && Cached(s, s.threads[e.t].file).None? {
      InsertOnMap(s, e.t, f);
    } else {
      assert After(s, e).list == s.list;
      QuietStep(s, e, f);
    }
  }

  /** The lookup section: a thread goes on with its own file object's entry if there is one, otherwise to create one. */
  lemma LookUpOnMap(s: State, t: nat)
    requires Inv(s) && Enabled(s, LookUp(t))
    ensures
      var found := Cached(s, s.threads[t].file);
      After(s, LookUp(t)).threads[t] == s.threads[t].(pc := if found.Some? then Holding(found.value) else Create)
    ensures After(s, LookUp(t)).list == s.list
  {
    hide Find;
  }

  /** In every run every entry a thread holds, created, or goes on with after losing a race is for its own file object. */
  lemma HeldForOwnFile(run: seq<State>, i: nat, t: nat, e: EntryId)
    requires IsRun(run, Init, Next) && i < |run| && t < |run[i].threads|
    requires
      var pc := run[i].threads[t].pc;
      || (pc.Holding? && e == pc.entry) || (pc.Insert? && e == pc.own) || (pc.Dropping? && e == pc.entry)
      || (pc.DropOwn? && (e == pc.own || e == pc.winner))
    ensures e in run[i].entries && run[i].entries[e].file == run[i].threads[t].file
  {
    InvInEveryRun(run, i);
    hide Counted, Accounted, OnePerFile, FilesOk, ListLive;
    assert Owns(e, run[i].threads[t]) > 0;
  }

  // ---- what an operation that wants the name gets ----

  ghost predicate Moves(s: State, e: Step, s': State) {
    Enabled(s, e) && s' == After(s, e)
  }

  /** The thread is between asking for the name and being done with it. */
  predicate Naming(pc: Pc) {
    pc.Lookup? || pc.Create? || pc.Insert? || pc.DropOwn? || pc.Holding?
  }

  /** A step of a thread that is after the name keeps it so, unless it was done with the name or could not have one. */
  lemma NamingStays(s: State, e: Step, s': State, t: nat)
    requires Moves(s, e, s') && t < |s.threads| && Naming(s.threads[t].pc)
    ensures t < |s'.threads| && s'.threads[t].file == s.threads[t].file
    ensures
      || Naming(s'.threads[t].pc)
      || (s'.threads[t].pc.PreExit? && (s.threads[t].pc.Holding? || (e.CreateEntry? && e.t == t && !e.ok)))
  {
    hide Find, Unlink, Dereferenced, Referenced;
    SameThreads(s, e);
  }

  /** Reference counting leaves the threads alone. */
  lemma SameThreads(s: State, e: Step)
    ensures forall x :: Referenced(s, x).threads == s.threads && Dereferenced(s, x).threads == s.threads
    ensures forall x, list :: Dereferenced(s.(list := list), x).threads == s.threads
  {
  }

  lemma StartNames(s: State, e: Step, s': State)
    requires Moves(s, e, s') && e.Start? && e.named
    ensures e.t < |s'.threads| && s'.threads[e.t].file == e.file && s'.threads[e.t].pc.Lookup?
  {
  }

  lemma MoveAt(run: seq<State>, trace: seq<Step>, k: nat)
    requires IsTrace(run, trace, Init, Moves) && k < |trace|
    ensures k + 1 < |run| && Moves(run[k], trace[k], run[k + 1])
  {
    hide Moves, Init;
  }

  /** From `a` to `k` thread `t` is in an operation that asked for its file's name, and not yet done with the name. */
  ghost predicate Asks(run: seq<State>, trace: seq<Step>, t: nat, a: nat, k: nat) {
    && a < k < |run| == |trace| + 1
    && trace[a].Start? && trace[a].t == t && trace[a].named
    && (forall j :: a < j < k ==> t < |run[j].threads| && !run[j].threads[t].pc.PreExit?)
  }

  /** How the step before `k` ended it, if it did. */
  ghost predicate Answered(s: State, e: Step, s': State, t: nat, file: File) {
    && t < |s'.threads| && s'.threads[t].file == file
    && (Naming(s'.threads[t].pc)
        || (t < |s.threads| && s.threads[t].file == file && s'.threads[t].pc.PreExit?
            && (s.threads[t].pc.Holding? || (e.CreateEntry? && e.t == t && !e.ok))))
  }

  lemma StartAnswered(s: State, e: Step, s': State)
    requires Moves(s, e, s') && e.Start? && e.named
    ensures Answered(s, e, s', e.t, e.file)
  {
    StartNames(s, e, s');
  }

  lemma AnsweredNext(s: State, e: Step, s': State, e': Step, s'': State, t: nat, file: File)
    requires Answered(s, e, s', t, file) && Moves(s', e', s'') && !s'.threads[t].pc.PreExit?
    ensures Answered(s', e', s'', t, file)
  {
    NamingStays(s', e', s'', t);
  }

  lemma {:induction false} NamingUntil(run: seq<State>, trace: seq<Step>, t: nat, a: nat, k: nat)
    requires IsTrace(run, trace, Init, Moves) && Asks(run, trace, t, a, k)
    ensures Answered(run[k - 1], trace[k - 1], run[k], t, trace[a].file)
    decreases k
  {
    hide Init, Moves, Answered;
    MoveAt(run, trace, k - 1);
    if k == a + 1 {
      StartAnswered(run[a], trace[a], run[k]);
    } else {
      NamingUntil(run, trace, t, a, k - 1);
      AnsweredNext(run[k - 2], trace[k - 2], run[k - 1], trace[k - 1], run[k], t, trace[a].file);
    }
  }

  /**
   An operation that asks for its file's name holds, when it is done with it, an entry for its own
   file object, whoever created it; only a failed creation of one leaves it without.
   */
  ghost predicate Named(s: State, e: Step, t: nat, file: File) {
    || (e.CreateEntry? && e.t == t && !e.ok)
    || (t < |s.threads| && s.threads[t].pc.Holding? && s.threads[t].file == file && s.threads[t].pc.entry in s.entries
        && s.entries[s.threads[t].pc.entry].file == file)
  }

  lemma AskedIsNamed(run: seq<State>, trace: seq<Step>, t: nat, a: nat, b: nat)
    requires IsTrace(run, trace, Init, Moves) && Asks(run, trace, t, a, b)
    requires t < |run[b].threads| && run[b].threads[t].pc.PreExit?
    ensures Named(run[b - 1], trace[b - 1], t, trace[a].file)
  {
    NamingUntil(run, trace, t, a, b);
    RunOfTrace(run, trace);
    hide IsTrace, Moves, Init, IsRun, Next, Asks;
    if t < |run[b - 1].threads| && run[b - 1].threads[t].pc.Holding? {
      HeldForOwnFile(run, b - 1, t, run[b - 1].threads[t].pc.entry);
    }
  }

  lemma RunOfTrace(run: seq<State>, trace: seq<Step>)
    requires IsTrace(run, trace, Init, Moves)
    ensures IsRun(run, Init, Next)
  {
    hide Init, After, Enabled;
    TraceIsRun(run, trace, Init, Moves, Next);
  }

  /** An operation under way always has a next step, and one can be started on any open file object. */
  lemma OperationsProceed(s: State, t: nat) returns (e: Step)
    requires Accounted(s) && t < |s.threads| && !s.threads[t].pc.Idle?
    ensures Enabled(s, e) && !e.Open? && !e.CleanupOne? && e.t == t
  {
    match s.threads[t].pc
    case Lookup => e := LookUp(t);
    case Create => e := CreateEntry(t, false, 0);
    case Insert(_) => e := InsertEntry(t);
    case DropOwn(_, _) => e := DropLoser(t);
    case Holding(_) => e := Release(t);
    case PreExit => e := Exit(t);
    case PostOp => e := Reap(t);
    case Dropping(_) => e := DropReaped(t);
  }
}
