/**
 The digest cache under concurrent writers: any number of calls hashing one file while others write
 it. A write purges the cached digests and breaks every held oplock; the last oplock check and the
 store of the attributes are one step.
 */
module HashCache {
  import opened Runs

  /** A file content, as a whole; a digest is a function of the contents its reads saw. */
  type Content = nat
  type Algorithm = nat

  datatype Digest = Digest(algorithm: Algorithm, seen: seq<Content>)

  datatype Oplock = Unavailable | Held | Broken

  /** `held`: the oplock was still held when the last hash was finished, at content `at`. */
  datatype Phase = Idle | Loaded | Hashing | Done(hashed: bool, held: bool, at: Content)

  /**
   One call; `loadedFrom` is the file's content when the cached digests were loaded, `begunAt` when
   hashing began and the oplock was or was not granted.
   */
  datatype Call = Call(
    phase: Phase,
    requested: set<Algorithm>,
    slots: map<Algorithm, Digest>,
    loaded: set<Algorithm>,
    loadedFrom: Content,
    oplock: Oplock,
    begunAt: Content,
    seen: seq<Content>)

  datatype State = State(content: Content, cache: map<Algorithm, Digest>, calls: seq<Call>)

  const IDLE := Call(Idle, {}, map[], {}, 0, Unavailable, 0, [])

  /** The digest of a file whose content was `c` at every read. */
  ghost predicate IsDigestOf(d: Digest, a: Algorithm, c: Content) {
    d.algorithm == a && d.seen != [] && forall i :: 0 <= i < |d.seen| ==> d.seen[i] == c
  }

  // ---- steps ----

  datatype Step =
    | Load(requested: set<Algorithm>)
    | Begin(granted: bool)
    | Read
    | Check
    | Finish(stored: bool)
    | Leave
    | Write(content: Content)

  predicate Enabled(s: State, t: nat, e: Step)
    requires t < |s.calls|
  {
    var call := s.calls[t];
    match e
    case Load(_) => call.phase.Idle?
    case Begin(_) => call.phase.Loaded?
    case Read => call.phase.Hashing?
    case Check => call.phase.Hashing?
    case Finish(_) => call.phase.Hashing? && call.seen != []
    case Leave => call.phase.Done?
    case Write(_) => true
  }

  function Missing(call: Call): set<Algorithm> {
    call.requested - call.slots.Keys
  }

  function Computed(call: Call): map<Algorithm, Digest> {
    map a | a in Missing(call) :: Digest(a, call.seen)
  }

  function BreakOplock(call: Call): Call {
    if call.oplock.Held? then call.(oplock := Broken) else call
  }

  /** The call after its own step. */
  function CallAfter(s: State, call: Call, e: Step): Call {
    match e
    case Load(requested) => Call(Loaded, requested, s.cache, s.cache.Keys, s.content, Unavailable, 0, [])
    case Begin(granted) =>
      if Missing(call) == {} then call.(phase := Done(false, false, call.loadedFrom))
      else call.(phase := Hashing, oplock := if granted then Held else Unavailable, begunAt := s.content)
    case Read => call.(seen := call.seen + [s.content])
    case Check => if call.oplock.Broken? then call.(oplock := Unavailable) else call
    case Finish(_) =>
      call.(phase := Done(true, call.oplock.Held?, s.content), slots := call.slots + Computed(call), oplock := Unavailable)
    case Leave => IDLE
    case Write(_) => call
  }

  function After(s: State, t: nat, e: Step): State
    requires t < |s.calls|
  {
    if e.Write? then
      State(e.content, map[], seq(|s.calls|, i requires 0 <= i < |s.calls| => BreakOplock(s.calls[i])))
    else
      var call := s.calls[t];
      s.(calls := s.calls[t := CallAfter(s, call, e)],
         cache := if e.Finish? && e.stored && call.oplock.Held? then s.cache + Computed(call) else s.cache)
  }

  ghost predicate StepBy(s: State, s': State, t: nat, e: Step) {
    t < |s.calls| && Enabled(s, t, e) && s' == After(s, t, e)
  }

  ghost predicate Next(s: State, s': State) {
    exists t: nat, e: Step :: StepBy(s, s', t, e)
  }

  ghost predicate Init(s: State) {
    s.cache == map[] && forall i :: 0 <= i < |s.calls| ==> s.calls[i] == IDLE
  }

  // ---- invariant ----

  ghost predicate DigestsOf(digests: map<Algorithm, Digest>, c: Content) {
    forall a :: a in digests ==> IsDigestOf(digests[a], a, c)
  }

  ghost predicate AllRead(seen: seq<Content>, c: Content) {
    forall i :: 0 <= i < |seen| ==> seen[i] == c
  }

  ghost predicate CallOk(s: State, call: Call) {
    && (call.phase.Loaded? || call.phase.Hashing? ==>
          call.loaded == call.slots.Keys && DigestsOf(call.slots, call.loadedFrom))
    && (call.phase.Loaded? || call.phase.Idle? ==> call.seen == [])
    // nothing was written since the oplock was granted: every read saw the present content
    && (call.oplock.Held? ==> call.phase.Hashing? && AllRead(call.seen, s.content) && call.begunAt == s.content)
    && (call.phase.Done? ==> Outcome(call))
  }

  /** What a finished call returns. */
  ghost predicate Outcome(call: Call)
    requires call.phase.Done?
  {
    && call.requested <= call.slots.Keys
    && (forall a :: a in call.loaded ==> a in call.slots && IsDigestOf(call.slots[a], a, call.loadedFrom))
    && (!call.phase.hashed ==> call.requested <= call.loaded)
    && (call.phase.held ==>
          && call.phase.at == call.begunAt
          && forall a :: a in call.requested && a !in call.loaded ==> IsDigestOf(call.slots[a], a, call.phase.at))
  }

  ghost predicate Inv(s: State) {
    DigestsOf(s.cache, s.content) && forall i :: 0 <= i < |s.calls| ==> CallOk(s, s.calls[i])
  }

  lemma OwnStep(s: State, call: Call, e: Step)
    requires DigestsOf(s.cache, s.content) && CallOk(s, call) && !e.Write?
    requires Enabled(State(s.content, s.cache, [call]), 0, e)
    ensures CallOk(s, CallAfter(s, call, e))
    ensures e.Finish? && call.oplock.Held? ==> DigestsOf(Computed(call), s.content)
  {
    assert forall a :: a in call.requested ==> a in call.slots || a in Missing(call);
  }

  lemma StepKeepsInv(s: State, s': State)
    requires Inv(s) && Next(s, s')
    ensures Inv(s')
  {
    var t: nat, e: Step :| StepBy(s, s', t, e);
    if !e.Write? {
      OwnStep(s, s.calls[t], e);
      assert CallOk(s', s'.calls[t]);
    }
  }

  /** In every run every cached digest is the digest of the file's present content. */
  lemma CacheIsCurrent(run: seq<State>, i: nat)
    requires IsRun(run, Init, Next) && i < |run|
    ensures Inv(run[i]) && DigestsOf(run[i].cache, run[i].content)
  {
    forall s, s' | Inv(s) && Next(s, s') ensures Inv(s') { StepKeepsInv(s, s'); }
    InvariantOnRun(run, Init, Next, Inv);
  }

  /**
   What a call returns, in every run. Without hashing: the digests of the content it loaded from.
   With the oplock held to the end: the content at the end is the one hashing began at, a computed
   digest is that content's, and all digests are if and only if none came from the cache or hashing
   began at the content loaded from.
   */
  lemma ReturnedDigests(run: seq<State>, i: nat, t: nat)
    requires IsRun(run, Init, Next) && i < |run| && t < |run[i].calls| && run[i].calls[t].phase.Done?
    ensures
      var call := run[i].calls[t];
      && call.requested <= call.slots.Keys
      && (!call.phase.hashed ==> forall a :: a in call.requested ==> IsDigestOf(call.slots[a], a, call.loadedFrom))
      && (call.phase.held ==>
            && call.phase.at == call.begunAt
            && (forall a :: a in call.requested - call.loaded ==> IsDigestOf(call.slots[a], a, call.phase.at))
            && ((forall a :: a in call.requested ==> IsDigestOf(call.slots[a], a, call.phase.at))
                <==> call.requested * call.loaded == {} || call.loadedFrom == call.begunAt))
  {
    CacheIsCurrent(run, i);
    var call := run[i].calls[t];
    assert CallOk(run[i], call);
    if call.phase.held && call.loadedFrom != call.phase.at && call.requested * call.loaded != {} {
      var a :| a in call.requested * call.loaded;
      OneContent(call.slots[a], a, call.loadedFrom, call.phase.at);
    }
    if call.phase.held && (call.loadedFrom == call.phase.at || call.requested * call.loaded == {}) {
      forall a | a in call.requested ensures IsDigestOf(call.slots[a], a, call.phase.at) {
        assert a in call.loaded ==> a in call.requested * call.loaded;
      }
    }
  }

  /** A digest is that of one content only. */
  lemma OneContent(d: Digest, a: Algorithm, c: Content, c': Content)
    requires IsDigestOf(d, a, c) && c != c'
    ensures !IsDigestOf(d, a, c')
  {
    assert d.seen[0] == c;
  }

  // ---- which writes go unnoticed ----

  ghost predicate Moves(s: State, m: Move<Step>, s': State) {
    StepBy(s, s', m.t, m.e)
  }

  /** A run together with the moves that made it. */
  ghost predicate Traced(run: seq<State>, trace: seq<Move<Step>>) {
    IsTrace(run, trace, Init, Moves)
  }

  lemma RunOfTrace(run: seq<State>, trace: seq<Move<Step>>)
    requires Traced(run, trace)
    ensures IsRun(run, Init, Next)
  {
    hide Init, StepBy;
    TraceIsRun(run, trace, Init, Moves, Next);
  }

  /** A move of call `t` itself; a write is nobody's. */
  predicate By(m: Move<Step>, t: nat) {
    m.t == t && !m.e.Write?
  }

  predicate Quiet(trace: seq<Move<Step>>, lo: nat, hi: nat) {
    forall k :: lo <= k < hi && k < |trace| ==> !trace[k].e.Write?
  }

  /** The content after the moves from `lo` to `hi` on content `c`. */
  function Written(trace: seq<Move<Step>>, lo: nat, hi: nat, c: Content): Content
    requires lo <= hi <= |trace|
    decreases hi
  {
    if lo == hi then c
    else if trace[hi - 1].e.Write? then trace[hi - 1].e.content
    else Written(trace, lo, hi - 1, c)
  }

  lemma {:induction false} WrittenIsContent(run: seq<State>, trace: seq<Move<Step>>, lo: nat, hi: nat)
    requires Traced(run, trace) && lo <= hi <= |trace|
    ensures run[hi].content == Written(trace, lo, hi, run[lo].content)
    ensures Quiet(trace, lo, hi) ==> run[hi].content == run[lo].content
    decreases hi
  {
    if lo < hi {
      WrittenIsContent(run, trace, lo, hi - 1);
      assert Moves(run[hi - 1], trace[hi - 1], run[hi - 1 + 1]);
    }
  }

  /** Call `t` loads at `l`, begins hashing at `g` and finishes at `f`, with nothing but reads and checks between. */
  ghost predicate Hashes(trace: seq<Move<Step>>, t: nat, l: nat, g: nat, f: nat) {
    && l < g < f < |trace|
    && trace[l].t == trace[g].t == trace[f].t == t
    && trace[l].e.Load? && trace[g].e.Begin? && trace[f].e.Finish?
    && (forall k :: l < k < g ==> !By(trace[k], t))
    && (forall k :: g < k < f && By(trace[k], t) ==> trace[k].e.Read? || trace[k].e.Check?)
  }

  lemma OthersMove(run: seq<State>, trace: seq<Move<Step>>, k: nat, t: nat)
    requires Traced(run, trace) && k < |trace| && t < |run[k].calls| && !By(trace[k], t)
    ensures t < |run[k + 1].calls|
    ensures run[k + 1].calls[t] == if trace[k].e.Write? then BreakOplock(run[k].calls[t]) else run[k].calls[t]
  {
    assert Moves(run[k], trace[k], run[k + 1]);
  }

  lemma OwnMove(run: seq<State>, trace: seq<Move<Step>>, k: nat, t: nat)
    requires Traced(run, trace) && k < |trace| && By(trace[k], t)
    ensures t < |run[k].calls| && t < |run[k + 1].calls| && Enabled(run[k], t, trace[k].e)
    ensures run[k + 1].calls[t] == CallAfter(run[k], run[k].calls[t], trace[k].e) && run[k + 1].content == run[k].content
  {
    assert Moves(run[k], trace[k], run[k + 1]);
  }

  lemma {:induction false} UntilBegin(run: seq<State>, trace: seq<Move<Step>>, t: nat, l: nat, g: nat, k: nat)
    requires Traced(run, trace) && l < k <= g <= |trace| && l < |trace| && trace[l].t == t && trace[l].e.Load?
    requires forall j :: l < j < g ==> !By(trace[j], t)
    ensures t < |run[k].calls|
    ensures run[k].calls[t]
         == Call(Loaded, trace[l].e.requested, run[l].cache, run[l].cache.Keys, run[l].content, Unavailable, 0, [])
    decreases k
  {
    if k == l + 1 {
      OwnMove(run, trace, l, t);
    } else {
      UntilBegin(run, trace, t, l, g, k - 1);
      OthersMove(run, trace, k - 1, t);
    }
  }

  /** While it hashes a call changes only its oplock and what it has read. */
  lemma {:induction false} WhileHashing(run: seq<State>, trace: seq<Move<Step>>, t: nat, l: nat, g: nat, f: nat, k: nat)
    requires Traced(run, trace) && Hashes(trace, t, l, g, f) && g < k <= f
    ensures t < |run[k].calls|
    ensures
      var call := run[k].calls[t];
      && (call.requested, call.slots, call.loaded, call.loadedFrom)
         == (trace[l].e.requested, run[l].cache, run[l].cache.Keys, run[l].content)
      && !call.phase.Loaded? && !call.phase.Idle? && (call.phase.Hashing? ==> call.begunAt == run[g].content)
      && (Quiet(trace, g, k) && call.phase.Hashing? ==> AllRead(call.seen, run[g].content))
    decreases k
  {
    if k == g + 1 {
      UntilBegin(run, trace, t, l, g, g);
      OwnMove(run, trace, g, t);
    } else {
      WhileHashing(run, trace, t, l, g, f, k - 1);
      WrittenIsContent(run, trace, g, k - 1);
      if By(trace[k - 1], t) {
        OwnMove(run, trace, k - 1, t);
      } else {
        OthersMove(run, trace, k - 1, t);
      }
    }
  }

  /** An oplock held at the end was held ever since the call began hashing, and nobody wrote. */
  lemma {:induction false} HeldMeansQuiet(run: seq<State>, trace: seq<Move<Step>>, t: nat, l: nat, g: nat, f: nat, k: nat)
    requires Traced(run, trace) && Hashes(trace, t, l, g, f) && g < k <= f
    requires t < |run[f].calls| && run[f].calls[t].oplock.Held?
    ensures t < |run[k].calls| && run[k].calls[t].oplock.Held? && Quiet(trace, k, f + 1)
    decreases f - k
  {
    if k < f {
      HeldMeansQuiet(run, trace, t, l, g, f, k + 1);
      WhileHashing(run, trace, t, l, g, f, k);
      if By(trace[k], t) {
        OwnMove(run, trace, k, t);
      } else {
        OthersMove(run, trace, k, t);
      }
    }
  }

  /**
   Exactly one window is unguarded: from the load of the cached digests to the oplock's grant. When
   the oplock is held to the end, a returned digest is that of the content at the end if and only if
   it was not in the cache at the load, or the writes in that window left the content as it was.
   */
  lemma LoadToGrantWindow(run: seq<State>, trace: seq<Move<Step>>, t: nat, l: nat, g: nat, f: nat)
    requires Traced(run, trace) && Hashes(trace, t, l, g, f)
    requires t < |run[f].calls| && run[f].calls[t].oplock.Held?
    ensures Quiet(trace, g, f + 1) && run[f + 1].content == run[g].content
    ensures t < |run[f + 1].calls| && run[f + 1].calls[t].phase == Done(true, true, run[f + 1].content)
    ensures
      var call := run[f + 1].calls[t];
      && call.requested == trace[l].e.requested <= call.slots.Keys
      && forall a :: a in call.requested ==>
           (IsDigestOf(call.slots[a], a, run[f + 1].content)
            <==> a !in run[l].cache || Written(trace, l, g, run[l].content) == run[l].content)
  {
    HeldMeansQuiet(run, trace, t, l, g, f, g + 1);
    WhileHashing(run, trace, t, l, g, f, f);
    OwnMove(run, trace, f, t);
    WrittenIsContent(run, trace, l, g);
    WrittenIsContent(run, trace, g, f + 1);
    RunOfTrace(run, trace);
    CacheIsCurrent(run, l);
    CacheIsCurrent(run, f + 1);
    var call := run[f + 1].calls[t];
    assert CallOk(run[f + 1], call);
    forall a | a in call.requested
      ensures IsDigestOf(call.slots[a], a, run[f + 1].content)
         <==> a !in run[l].cache || Written(trace, l, g, run[l].content) == run[l].content
    {
      if a in run[l].cache && run[l].content != run[g].content {
        OneContent(call.slots[a], a, run[l].content, run[g].content);
      }
    }
  }

  /** If nobody writes between load and grant, an oplock held to the end guards every digest returned. */
  lemma QuietWindowIsSafe(run: seq<State>, trace: seq<Move<Step>>, t: nat, l: nat, g: nat, f: nat)
    requires Traced(run, trace) && Hashes(trace, t, l, g, f) && Quiet(trace, l, g)
    requires t < |run[f].calls| && run[f].calls[t].oplock.Held?
    ensures t < |run[f + 1].calls|
    ensures
      var call := run[f + 1].calls[t];
      call.requested <= call.slots.Keys
      && forall a :: a in call.requested ==> IsDigestOf(call.slots[a], a, run[f + 1].content)
  {
    LoadToGrantWindow(run, trace, t, l, g, f);
    WrittenIsContent(run, trace, l, g);
  }

  /** If the last write in that window changed the content, every cached digest returned is the old content's. */
  lemma WriteInWindowIsMissed(run: seq<State>, trace: seq<Move<Step>>, t: nat, l: nat, w: nat, g: nat, f: nat, a: Algorithm)
    requires Traced(run, trace) && Hashes(trace, t, l, g, f)
    requires t < |run[f].calls| && run[f].calls[t].oplock.Held?
    requires l < w < g && trace[w].e.Write? && trace[w].e.content != run[l].content && Quiet(trace, w + 1, g)
    requires a in trace[l].e.requested && a in run[l].cache
    ensures t < |run[f + 1].calls| && run[f + 1].calls[t].phase.Done? && run[f + 1].calls[t].phase.held
    ensures
      var call := run[f + 1].calls[t];
      a in call.slots && IsDigestOf(call.slots[a], a, run[l].content) && !IsDigestOf(call.slots[a], a, run[f + 1].content)
  {
    LoadToGrantWindow(run, trace, t, l, g, f);
    WrittenIsContent(run, trace, w + 1, g);
    WrittenIsContent(run, trace, w, w + 1);
    WrittenIsContent(run, trace, l, g);
    WhileHashing(run, trace, t, l, g, f, f);
    OwnMove(run, trace, f, t);
    RunOfTrace(run, trace);
    CacheIsCurrent(run, l);
  }

  /** With no write at all from load to finish every digest is right, whether or not an oplock was granted. */
  lemma QuietCallIsSafe(run: seq<State>, trace: seq<Move<Step>>, t: nat, l: nat, g: nat, f: nat)
    requires Traced(run, trace) && Hashes(trace, t, l, g, f) && Quiet(trace, l, f)
    ensures t < |run[f + 1].calls|
    ensures
      var call := run[f + 1].calls[t];
      call.requested <= call.slots.Keys
      && forall a :: a in call.requested ==> IsDigestOf(call.slots[a], a, run[f + 1].content)
  {
    WhileHashing(run, trace, t, l, g, f, f);
    OwnMove(run, trace, f, t);
    WrittenIsContent(run, trace, l, g);
    WrittenIsContent(run, trace, l, f);
    RunOfTrace(run, trace);
    CacheIsCurrent(run, l);
    var before := run[f].calls[t];
    assert forall a :: a in before.requested ==> a in before.slots || a in Missing(before);
  }

  // ---- what the cache is good for ----

  lemma {:induction false} HashingUntil(run: seq<State>, trace: seq<Move<Step>>, t: nat, l: nat, g: nat, f: nat, k: nat)
    requires Traced(run, trace) && Hashes(trace, t, l, g, f) && g < k <= f
    ensures t < |run[k].calls| && run[k].calls[t].phase.Hashing?
    decreases f - k
  {
    WhileHashing(run, trace, t, l, g, f, k);
    if k == f {
      OwnMove(run, trace, f, t);
    } else {
      HashingUntil(run, trace, t, l, g, f, k + 1);
      if By(trace[k], t) {
        OwnMove(run, trace, k, t);
      } else {
        OthersMove(run, trace, k, t);
      }
    }
  }

  lemma {:induction false} QuietMeansHeld(run: seq<State>, trace: seq<Move<Step>>, t: nat, l: nat, g: nat, f: nat, k: nat)
    requires Traced(run, trace) && Hashes(trace, t, l, g, f) && g < k <= f && trace[g].e == Begin(true) && Quiet(trace, g, k)
    ensures t < |run[k].calls| && run[k].calls[t].oplock.Held?
    decreases k
  {
    HashingUntil(run, trace, t, l, g, f, k);
    if k == g + 1 {
      OwnMove(run, trace, g, t);
    } else {
      QuietMeansHeld(run, trace, t, l, g, f, k - 1);
      if By(trace[k - 1], t) {
        OwnMove(run, trace, k - 1, t);
      } else {
        OthersMove(run, trace, k - 1, t);
      }
    }
  }

  /** A granted oplock is held to the end exactly if nobody writes in between. */
  lemma HeldExactly(run: seq<State>, trace: seq<Move<Step>>, t: nat, l: nat, g: nat, f: nat)
    requires Traced(run, trace) && Hashes(trace, t, l, g, f) && trace[g].e == Begin(true)
    ensures t < |run[f].calls| && (run[f].calls[t].oplock.Held? <==> Quiet(trace, g, f))
  {
    WhileHashing(run, trace, t, l, g, f, f);
    if run[f].calls[t].oplock.Held? {
      HeldMeansQuiet(run, trace, t, l, g, f, g + 1);
    }
    if Quiet(trace, g, f) {
      QuietMeansHeld(run, trace, t, l, g, f, f);
    }
  }

  /** Without writes nothing leaves the cache. */
  lemma {:induction false} CacheGrows(run: seq<State>, trace: seq<Move<Step>>, lo: nat, hi: nat)
    requires Traced(run, trace) && lo <= hi <= |trace| && Quiet(trace, lo, hi)
    ensures run[lo].cache.Keys <= run[hi].cache.Keys
    decreases hi
  {
    if lo < hi {
      CacheGrows(run, trace, lo, hi - 1);
      assert Moves(run[hi - 1], trace[hi - 1], run[hi - 1 + 1]);
    }
  }

  lemma FinishStores(s: State, m: Move<Step>, s': State)
    requires Moves(s, m, s') && m.e == Finish(true) && s.calls[m.t].oplock.Held?
    ensures s.calls[m.t].requested <= s'.cache.Keys + s.calls[m.t].slots.Keys && s.cache.Keys <= s'.cache.Keys
  {
    var call := s.calls[m.t];
    assert forall a :: a in call.requested ==> a in call.slots || a in Missing(call);
  }

  /**
   A call that hashed under a granted oplock and stored its digests leaves every digest it was asked
   for in the cache, right, for as long as nobody writes.
   */
  lemma DigestsAreCached(run: seq<State>, trace: seq<Move<Step>>, t: nat, l: nat, g: nat, f: nat, n: nat)
    requires Traced(run, trace) && Hashes(trace, t, l, g, f) && trace[g].e == Begin(true) && trace[f].e == Finish(true)
    requires f < n <= |trace| && Quiet(trace, l, n)
    ensures trace[l].e.requested <= run[n].cache.Keys
    ensures forall a :: a in trace[l].e.requested ==> IsDigestOf(run[n].cache[a], a, run[n].content)
  {
    QuietMeansHeld(run, trace, t, l, g, f, f);
    WhileHashing(run, trace, t, l, g, f, f);
    assert Moves(run[f], trace[f], run[f + 1]);
    FinishStores(run[f], trace[f], run[f + 1]);
    CacheGrows(run, trace, l, f);
    CacheGrows(run, trace, f + 1, n);
    RunOfTrace(run, trace);
    CacheIsCurrent(run, n);
  }

  /** A call hashes exactly if some digest it was asked for was not in the cache; the others it takes from there. */
  lemma HashesOnlyMissing(run: seq<State>, trace: seq<Move<Step>>, t: nat, l: nat, g: nat)
    requires Traced(run, trace) && l < g < |trace| && trace[l].t == trace[g].t == t && trace[l].e.Load? && trace[g].e.Begin?
    requires forall k :: l < k < g ==> !By(trace[k], t)
    ensures t < |run[g + 1].calls|
    ensures
      var call := run[g + 1].calls[t];
      && call.slots == run[l].cache && call.requested == trace[l].e.requested
      && (if trace[l].e.requested <= run[l].cache.Keys then call.phase.Done? && !call.phase.hashed else call.phase.Hashing?)
  {
    UntilBegin(run, trace, t, l, g, g);
    OwnMove(run, trace, g, t);
    var call := run[g].calls[t];
    assert Missing(call) == {} <==> call.requested <= call.slots.Keys by {
      assert forall a :: a in call.requested && a !in call.slots ==> a in Missing(call);
    }
  }

  /** One call caches a digest; the next loads it, the file is written, and another algorithm is hashed. */
  function ExampleSteps(): seq<Step> {
    [Load({0}), Begin(true), Read, Finish(true), Leave,
     Load({0, 1}), Write(2), Begin(true), Read, Finish(true)]
  }

  function ExampleState(n: nat): (s: State)
    requires n <= |ExampleSteps()|
    ensures |s.calls| == 1
  {
    if n == 0 then State(1, map[], [IDLE]) else After(ExampleState(n - 1), 0, ExampleSteps()[n - 1])
  }

  /** With one call in the system a step rewrites that call. */
  lemma OneCall(n: nat, call: Call, content: Content, cache: map<Algorithm, Digest>)
    requires n < |ExampleSteps()| && ExampleState(n) == State(content, cache, [call])
    ensures
      var e := ExampleSteps()[n];
      ExampleState(n + 1) ==
        if e.Write? then State(e.content, map[], [BreakOplock(call)])
        else State(content, if e.Finish? && e.stored && call.oplock.Held? then cache + Computed(call) else cache,
                   [CallAfter(ExampleState(n), call, e)])
  {
    assert ExampleState(n + 1) == After(ExampleState(n), 0, ExampleSteps()[n]);
  }

  const FIRST := Call(Hashing, {0}, map[], {}, 1, Held, 1, [])

  lemma ExampleTo2()
    ensures forall n :: 0 <= n < 2 ==> Enabled(ExampleState(n), 0, ExampleSteps()[n])
    ensures ExampleState(2) == State(1, map[], [FIRST])
  {
    var none: map<Algorithm, Digest> := map[];
    assert ExampleState(0) == State(1, none, [IDLE]);
    hide ExampleState, After;
    OneCall(0, IDLE, 1, none);
    var c1 := FIRST.(phase := Loaded, oplock := Unavailable, begunAt := 0);
    assert none.Keys == {};
    assert ExampleState(1) == State(1, map[], [c1]);
    assert Missing(c1) == {0};
    OneCall(1, c1, 1, none);
  }

  lemma ExampleTo5()
    ensures forall n :: 0 <= n < 5 ==> Enabled(ExampleState(n), 0, ExampleSteps()[n])
    ensures ExampleState(5) == State(1, map[0 := Digest(0, [1])], [IDLE])
  {
    ExampleTo2();
    hide ExampleState, After;
    var c3 := FIRST.(seen := [1]);
    OneCall(2, FIRST, 1, map[]);
    assert FIRST.seen + [1] == [1];
    assert ExampleState(3) == State(1, map[], [c3]);
    assert Missing(c3) == {0};
    assert Computed(c3) == map[0 := Digest(0, [1])];
    OneCall(3, c3, 1, map[]);
    assert ExampleState(4).cache == map[0 := Digest(0, [1])];
    OneCall(4, ExampleState(4).calls[0], 1, ExampleState(4).cache);
  }

  const SECOND := Call(Hashing, {0, 1}, map[0 := Digest(0, [1])], {0}, 1, Held, 2, [])

  lemma ExampleTo8()
    ensures forall n :: 5 <= n < 8 ==> Enabled(ExampleState(n), 0, ExampleSteps()[n])
    ensures ExampleState(8) == State(2, map[], [SECOND])
  {
    ExampleTo5();
    hide ExampleState, After;
    var cache := map[0 := Digest(0, [1])];
    OneCall(5, IDLE, 1, cache);
    assert cache.Keys == {0};
    var c6 := SECOND.(phase := Loaded, oplock := Unavailable, begunAt := 0);
    assert ExampleState(6) == State(1, cache, [c6]);
    OneCall(6, c6, 1, cache);
    assert Missing(c6) == {1};
    OneCall(7, c6, 2, map[]);
  }

  lemma ExampleTo10()
    ensures forall n :: 8 <= n < 10 ==> Enabled(ExampleState(n), 0, ExampleSteps()[n])
    ensures
      var call := ExampleState(10).calls[0];
      call.phase == Done(true, true, 2) && call.requested == {0, 1} && call.slots == map[0 := Digest(0, [1]), 1 := Digest(1, [2])]
    ensures ExampleState(10).content == 2
  {
    ExampleTo8();
    hide ExampleState, After;
    OneCall(8, SECOND, 2, map[]);
    var c9 := SECOND.(seen := [2]);
    assert SECOND.seen + [2] == [2];
    assert ExampleState(9) == State(2, map[], [c9]);
    assert Missing(c9) == {1} && Computed(c9) == map[1 := Digest(1, [2])];
    OneCall(9, c9, 2, map[]);
  }

  lemma ExampleEnd()
    ensures
      var s := ExampleState(10);
      && s.content == 2 && s.calls[0].phase == Done(true, true, 2)
      && 0 in s.calls[0].requested && 0 in s.calls[0].slots
      && IsDigestOf(s.calls[0].slots[0], 0, 1) && !IsDigestOf(s.calls[0].slots[0], 0, 2)
  {
    ExampleTo10();
    hide ExampleState, After;
    OneContent(Digest(0, [1]), 0, 1, 2);
  }

  lemma ExampleStep(n: nat)
    requires n < |ExampleSteps()| && Enabled(ExampleState(n), 0, ExampleSteps()[n])
    ensures Next(ExampleState(n), ExampleState(n + 1))
  {
    hide After, Enabled;
    assert StepBy(ExampleState(n), ExampleState(n + 1), 0, ExampleSteps()[n]);
  }

  /**
   A write between loading the cached digests and the oplock's grant goes unnoticed: the oplock is
   never broken, and the digest returned for algorithm 0 is that of the old content.
   */
  lemma StaleExample() returns (run: seq<State>)
    ensures IsRun(run, Init, Next)
    ensures
      var s := run[|run| - 1];
      && |s.calls| == 1 && s.content == 2 && s.calls[0].phase == Done(true, true, 2)
      && 0 in s.calls[0].requested && 0 in s.calls[0].slots
      && IsDigestOf(s.calls[0].slots[0], 0, 1) && !IsDigestOf(s.calls[0].slots[0], 0, 2)
  {
    run := seq(11, n requires 0 <= n < 11 => ExampleState(n));
    ExampleTo5();
    ExampleTo8();
    ExampleTo10();
    ExampleEnd();
    assert Init(ExampleState(0));
    hide ExampleState, Init, Next, After, Enabled, IsDigestOf;
    forall i | 0 <= i < |run| - 1 ensures Next(run[i], run[i + 1]) {
      ExampleStep(i);
    }
  }
}
