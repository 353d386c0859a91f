/**
 The asynchronous message queue: senders that hand messages over, queue threads that send them, and
 the stop routine, which closes the rundown, abandons the queue and services what is left in it.
 */
module MessageQueue {
  import opened Runs
  import opened Tally

  /** Which lookaside list a message's memory came from. */
  datatype Pool = Paged | NonPaged

  datatype Message = Message(id: nat, pool: Pool)

  datatype Item = Item(message: Message, nonPaged: bool)

  /**
   A call of the asynchronous send function for messages of the pool `send`, from taking over the
   message to returning.
   */
  datatype SenderPc =
    | Idle
    | Given(message: Message, send: Pool)
    | Acquired(message: Message, send: Pool)
    | Ready(item: Item)
    | Releasing

  /** `sync`: the thread is inside a synchronous send, which holds the rundown and may hand over copies. */
  datatype Sender = Sender(pc: SenderPc, sync: bool)

  datatype Worker = Waiting | Sending(item: Item) | Sent(item: Item) | Exited

  /** The ring the queue's rundown returned, as a sequence. */
  datatype Stop = Running | Closing | Quiet | Joining(ring: seq<Item>) | Draining(ring: seq<Item>) | Stopped

  /** A free, by the pool whose free routine was called. */
  datatype Free = Free(message: Message, pool: Pool)

  /**
   What happened to messages, in order: refused by the rundown, dropped for want of an item, inserted
   into the queue, taken out of it, and sent to the clients.
   */
  datatype History = History(
    refused: seq<Message>,
    dropped: seq<Message>,
    inserted: seq<Message>,
    taken: seq<Message>,
    sent: seq<Message>)

  datatype State = State(
    senders: seq<Sender>,
    workers: seq<Worker>,
    queue: seq<Item>,
    stop: Stop,
    created: set<Message>,
    freed: seq<Free>,
    past: History)

  predicate Closed(s: State) {
    !s.stop.Running?
  }

  predicate Abandoned(s: State) {
    s.stop.Joining? || s.stop.Draining? || s.stop.Stopped?
  }

  function ItemFree(item: Item): Free {
    Free(item.message, if item.nonPaged then NonPaged else Paged)
  }

  /** References a sender holds on the rundown. */
  function Holds(k: nat, sender: Sender): nat {
    (if sender.sync then 1 else 0) + (if sender.pc.Acquired? || sender.pc.Ready? || sender.pc.Releasing? then 1 else 0)
  }

  // ---- steps ----

  datatype Step =
    | Give(t: nat, message: Message, send: Pool)
    | Acquire(t: nat)
    | Allocate(t: nat, ok: bool)
    | Insert(t: nat)
    | Release(t: nat)
    | BeginSync(t: nat)
    | EndSync(t: nat)
    | Remove(w: nat)
    | Send(w: nat)
    | FreeItem(w: nat)
    | BeginStop
    | RundownComplete
    | AbandonQueue
    | ThreadsExited
    | DrainOne
    | EndStop

  predicate Enabled(s: State, e: Step) {
    match e
    // callers choose the function that matches where they allocated the message
    case Give(t, m, send) => t < |s.senders| && s.senders[t].pc.Idle? && m !in s.created && send == m.pool
    case Acquire(t) => t < |s.senders| && s.senders[t].pc.Given?
    case Allocate(t, _) => t < |s.senders| && s.senders[t].pc.Acquired?
    case Insert(t) => t < |s.senders| && s.senders[t].pc.Ready?
    case Release(t) => t < |s.senders| && s.senders[t].pc.Releasing?
    case BeginSync(t) => t < |s.senders| && s.senders[t] == Sender(Idle, false)
    case EndSync(t) => t < |s.senders| && s.senders[t] == Sender(Idle, true)
    case Remove(w) => w < |s.workers| && s.workers[w].Waiting? && (Abandoned(s) || s.queue != [])
    case Send(w) => w < |s.workers| && s.workers[w].Sending?
    case FreeItem(w) => w < |s.workers| && s.workers[w].Sent?
    case BeginStop => s.stop.Running?
    case RundownComplete => s.stop.Closing? && Total(s.senders, Holds, 0) == 0
    case AbandonQueue => s.stop.Quiet?
    case ThreadsExited => s.stop.Joining? && forall w :: 0 <= w < |s.workers| ==> s.workers[w].Exited?
    case DrainOne => s.stop.Draining? && s.stop.ring != []
    case EndStop => s.stop.Draining? && s.stop.ring == []
  }

  function SetSender(s: State, t: nat, sender: Sender): State
    requires t < |s.senders|
  {
    s.(senders := s.senders[t := sender])
  }

  function SetWorker(s: State, w: nat, worker: Worker): State
    requires w < |s.workers|
  {
    s.(workers := s.workers[w := worker])
  }

  function After(s: State, e: Step): State
    requires Enabled(s, e)
  {
    match e
    case Give(t, m, send) => SetSender(s, t, s.senders[t].(pc := Given(m, send))).(created := s.created + {m})
    case Acquire(t) =>
      var m, send := s.senders[t].pc.message, s.senders[t].pc.send;
      if Closed(s) then
        SetSender(s, t, s.senders[t].(pc := Idle))
          .(freed := s.freed + [Free(m, send)], past := s.past.(refused := s.past.refused + [m]))
      else SetSender(s, t, s.senders[t].(pc := Acquired(m, send)))
    case Allocate(t, ok) =>
      var m, send := s.senders[t].pc.message, s.senders[t].pc.send;
      if ok then SetSender(s, t, s.senders[t].(pc := Ready(Item(m, send.NonPaged?))))
      else
        SetSender(s, t, s.senders[t].(pc := Releasing))
          .(freed := s.freed + [Free(m, send)], past := s.past.(dropped := s.past.dropped + [m]))
    case Insert(t) =>
      var item := s.senders[t].pc.item;
      SetSender(s, t, s.senders[t].(pc := Releasing))
        .(queue := s.queue + [item], past := s.past.(inserted := s.past.inserted + [item.message]))
    case Release(t) => SetSender(s, t, s.senders[t].(pc := Idle))
    case BeginSync(t) => if Closed(s) then s else SetSender(s, t, Sender(Idle, true))
    case EndSync(t) => SetSender(s, t, Sender(Idle, false))
    case Remove(w) =>
      if Abandoned(s) then SetWorker(s, w, Exited)
      else
        SetWorker(s, w, Sending(s.queue[0]))
          .(queue := s.queue[1..], past := s.past.(taken := s.past.taken + [s.queue[0].message]))
    case Send(w) =>
      var item := s.workers[w].item;
      SetWorker(s, w, Sent(item)).(past := s.past.(sent := s.past.sent + [item.message]))
    case FreeItem(w) => SetWorker(s, w, Waiting).(freed := s.freed + [ItemFree(s.workers[w].item)])
    case BeginStop => s.(stop := Closing)
    case RundownComplete => s.(stop := Quiet)
    case AbandonQueue => s.(stop := Joining(s.queue), queue := [])
    case ThreadsExited => s.(stop := Draining(s.stop.ring))
    case DrainOne =>
      var item := s.stop.ring[0];
      s.(stop := Draining(s.stop.ring[1..]), freed := s.freed + [ItemFree(item)],
         past := s.past.(taken := s.past.taken + [item.message], sent := s.past.sent + [item.message]))
    case EndStop => s.(stop := Stopped)
  }

  ghost predicate Next(s: State, s': State) {
    exists e :: Enabled(s, e) && s' == After(s, e)
  }

  ghost predicate Init(s: State) {
    && (forall t :: 0 <= t < |s.senders| ==> s.senders[t] == Sender(Idle, false))
    && (forall w :: 0 <= w < |s.workers| ==> s.workers[w] == Waiting)
    && s.queue == [] && s.stop == Running && s.created == {} && s.freed == []
    && s.past == History([], [], [], [], [])
  }

  // ---- where a message is ----

  function InSender(m: Message, sender: Sender): nat {
    match sender.pc
    case Given(x, _) => if x == m then 1 else 0
    case Acquired(x, _) => if x == m then 1 else 0
    case Ready(item) => if item.message == m then 1 else 0
    case _ => 0
  }

  function InWorker(m: Message, worker: Worker): nat {
    if (worker.Sending? || worker.Sent?) && worker.item.message == m then 1 else 0
  }

  function InItem(m: Message, item: Item): nat {
    if item.message == m then 1 else 0
  }

  function InFree(m: Message, free: Free): nat {
    if free.message == m then 1 else 0
  }

  function Ring(s: State): seq<Item> {
    if s.stop.Joining? || s.stop.Draining? then s.stop.ring else []
  }

  /** Everywhere the message is, plus how often it was freed. */
  function Places(s: State, m: Message): nat {
    Total(s.senders, InSender, m) + Total(s.workers, InWorker, m) + Total(s.queue, InItem, m)
    + Total(Ring(s), InItem, m) + Total(s.freed, InFree, m)
  }

  // ---- invariant ----

  /** An item frees its message to the pool it came from. */
  predicate Faithful(item: Item) {
    item.nonPaged == item.message.pool.NonPaged?
  }

  /** The send function under way frees to the pool its message came from. */
  predicate RightSend(pc: SenderPc) {
    pc.Given? || pc.Acquired? ==> pc.send == pc.message.pool
  }

  ghost predicate ItemsFaithful(s: State) {
    && (forall t :: 0 <= t < |s.senders| ==> RightSend(s.senders[t].pc))
    && (forall t :: 0 <= t < |s.senders| && s.senders[t].pc.Ready? ==> Faithful(s.senders[t].pc.item))
    && (forall w :: 0 <= w < |s.workers| && (s.workers[w].Sending? || s.workers[w].Sent?) ==> Faithful(s.workers[w].item))
    && (forall i :: 0 <= i < |s.queue| ==> Faithful(s.queue[i]))
    && (forall i :: 0 <= i < |Ring(s)| ==> Faithful(Ring(s)[i]))
    && (forall i :: 0 <= i < |s.freed| ==> s.freed[i].pool == s.freed[i].message.pool)
  }

  /** Once the rundown has completed nobody holds it any more, and the abandoned queue stays empty. */
  ghost predicate Silent(s: State) {
    && (s.stop.Quiet? || Abandoned(s) ==> Total(s.senders, Holds, 0) == 0)
    && (Abandoned(s) ==> s.queue == [])
    && (s.stop.Draining? || s.stop.Stopped? ==> forall w :: 0 <= w < |s.workers| ==> s.workers[w].Exited?)
  }

  /** Every message handed over is in exactly one place or was freed, once. */
  ghost predicate Accounted(s: State) {
    forall m :: Places(s, m) == if m in s.created then 1 else 0
  }

  ghost predicate Inv(s: State) {
    ItemsFaithful(s) && Silent(s) && Accounted(s)
  }

  lemma FaithfulKept(s: State, e: Step)
    requires ItemsFaithful(s) && Enabled(s, e)
    ensures ItemsFaithful(After(s, e))
  {
    if e.DrainOne? {
      assert Faithful(Ring(s)[0]);
      forall i | 0 <= i < |Ring(After(s, e))| ensures Faithful(Ring(After(s, e))[i]) {
        assert Ring(After(s, e))[i] == Ring(s)[i + 1];
      }
    } else if e.AbandonQueue? {
      assert Ring(After(s, e)) == s.queue;
    } else {
      assert Ring(After(s, e)) == Ring(s);
    }
  }

  lemma SenderHolds(s: State, t: nat)
    requires t < |s.senders| && Total(s.senders, Holds, 0) == 0
    ensures Holds(0, s.senders[t]) == 0
  {
    TotalAtLeast(s.senders, t, Holds, 0);
  }

  lemma SilentKept(s: State, e: Step)
    requires Silent(s) && Enabled(s, e)
    ensures Silent(After(s, e))
  {
    var s' := After(s, e);
    if BySender(e) {
      TotalUpdate(s.senders, e.t, s'.senders[e.t], Holds, 0);
      if Total(s.senders, Holds, 0) == 0 {
        SenderHolds(s, e.t);
      }
    }
  }

  predicate BySender(e: Step) {
    e.Give? || e.Acquire? || e.Allocate? || e.Insert? || e.Release? || e.BeginSync? || e.EndSync?
  }

  lemma SenderKeepsMessage(s: State, e: Step, m: Message)
    requires Enabled(s, e) && (e.Give? || e.Release? || e.BeginSync? || e.EndSync?) && (e.Give? ==> e.message != m)
    ensures Places(After(s, e), m) == Places(s, m)
  {
    TotalUpdate(s.senders, e.t, After(s, e).senders[e.t], InSender, m);
  }

  lemma SenderMovesMessage(s: State, e: Step, m: Message)
    requires Enabled(s, e) && (e.Acquire? || e.Allocate? || e.Insert?)
    ensures Places(After(s, e), m) == Places(s, m)
  {
    var s' := After(s, e);
    var before := s.senders[e.t];
    TotalUpdate(s.senders, e.t, s'.senders[e.t], InSender, m);
    if e.Insert? {
      TotalAppend(s.queue, [before.pc.item], InItem, m);
    } else if s'.freed != s.freed {
      TotalAppend(s.freed, [Free(before.pc.message, before.pc.send)], InFree, m);
    }
  }

  lemma WorkerPlacesKept(s: State, e: Step, m: Message)
    requires Enabled(s, e) && (e.Remove? || e.Send? || e.FreeItem?)
    ensures Places(After(s, e), m) == Places(s, m)
  {
    TotalUpdate(s.workers, e.w, After(s, e).workers[e.w], InWorker, m);
    if e.FreeItem? {
      TotalAppend(s.freed, [ItemFree(s.workers[e.w].item)], InFree, m);
    }
  }

  lemma StopPlacesKept(s: State, e: Step, m: Message)
    requires Enabled(s, e) && !BySender(e) && !e.Remove? && !e.Send? && !e.FreeItem?
    ensures Places(After(s, e), m) == Places(s, m)
  {
    if e.DrainOne? {
      TotalAppend(s.freed, [ItemFree(s.stop.ring[0])], InFree, m);
    }
  }

  lemma PlacesKept(s: State, e: Step, m: Message)
    requires Enabled(s, e) && (e.Give? ==> e.message != m)
    ensures Places(After(s, e), m) == Places(s, m)
  {
    hide Enabled, After, Places;
    if e.Acquire? || e.Allocate? || e.Insert? {
      SenderMovesMessage(s, e, m);
    } else if BySender(e) {
      SenderKeepsMessage(s, e, m);
    } else if e.Remove? || e.Send? || e.FreeItem? {
      WorkerPlacesKept(s, e, m);
    } else {
      StopPlacesKept(s, e, m);
    }
  }

  lemma GiveAddsOne(s: State, e: Step)
    requires Enabled(s, e) && e.Give?
    ensures Places(After(s, e), e.message) == Places(s, e.message) + 1
  {
    TotalUpdate(s.senders, e.t, After(s, e).senders[e.t], InSender, e.message);
  }

  lemma StepKeepsInv(s: State, s': State)
    requires Inv(s) && Next(s, s')
    ensures Inv(s')
  {
    var e :| Enabled(s, e) && s' == After(s, e);
    FaithfulKept(s, e);
    SilentKept(s, e);
    forall m ensures Places(s', m) == if m in s'.created then 1 else 0 {
      if e.Give? && e.message == m {
        GiveAddsOne(s, e);
      } else {
        PlacesKept(s, e, m);
      }
    }
  }

  lemma InitHolds(s: State)
    requires Init(s)
    ensures Inv(s)
  {
    forall m ensures Places(s, m) == 0 {
      TotalZero(s.senders, InSender, m);
      TotalZero(s.workers, InWorker, m);
    }
  }

  lemma InvInEveryRun(run: seq<State>, i: nat)
    requires IsRun(run, Init, Next) && i < |run|
    ensures Inv(run[i])
  {
    forall s | Init(s) ensures Inv(s) { InitHolds(s); }
    forall s, s' | Inv(s) && Next(s, s') ensures Inv(s') { StepKeepsInv(s, s'); }
    InvariantOnRun(run, Init, Next, Inv);
  }

  // ---- what every run guarantees ----

  /** No message is ever freed twice, or freed while queued or owned, or freed to the wrong pool. */
  lemma FreedOnceByItsPool(run: seq<State>, i: nat, m: Message)
    requires IsRun(run, Init, Next) && i < |run|
    ensures Total(run[i].freed, InFree, m) <= 1
    ensures Total(run[i].freed, InFree, m) == 1 ==>
      Total(run[i].queue, InItem, m) == 0 && Total(run[i].senders, InSender, m) == 0 && Total(run[i].workers, InWorker, m) == 0
    ensures forall k :: 0 <= k < |run[i].freed| ==> run[i].freed[k].pool == run[i].freed[k].message.pool
  {
    InvInEveryRun(run, i);
    assert Places(run[i], m) <= 1;
  }

  /** From the rundown's completion on no step puts an item into the queue, and none is there after the queue was abandoned. */
  lemma NothingEnqueuedAfterRundown(run: seq<State>, i: nat)
    requires IsRun(run, Init, Next) && i + 1 < |run|
    requires run[i].stop.Quiet? || Abandoned(run[i])
    ensures |run[i + 1].queue| <= |run[i].queue|
    ensures Abandoned(run[i]) ==> run[i].queue == [] && run[i + 1].queue == []
  {
    InvInEveryRun(run, i);
    InvInEveryRun(run, i + 1);
    assert Next(run[i], run[i + 1]);
    var e :| Enabled(run[i], e) && run[i + 1] == After(run[i], e);
    if e.Insert? {
      SenderHolds(run[i], e.t);
    }
  }

  /** When stop has returned the queue is empty, the queue threads are gone and all messages but those just handed over are freed. */
  lemma StoppedIsEmpty(run: seq<State>, i: nat, m: Message)
    requires IsRun(run, Init, Next) && i < |run| && run[i].stop.Stopped? && m in run[i].created
    ensures run[i].queue == [] && forall w :: 0 <= w < |run[i].workers| ==> run[i].workers[w].Exited?
    ensures Total(run[i].freed, InFree, m) == 1
         || exists t :: 0 <= t < |run[i].senders| && run[i].senders[t].pc == Given(m, m.pool)
  {
    InvInEveryRun(run, i);
    var s := run[i];
    assert Places(s, m) == 1;
    TotalZero(s.workers, InWorker, m);
    if Total(s.freed, InFree, m) != 1 {
      var t := TotalWitness(s.senders, InSender, m);
      SenderHolds(s, t);
      assert s.senders[t].pc == Given(m, m.pool);
    }
  }

  /** Once stop has seen the rundown complete no thread is inside a send any more, in any run. */
  lemma NobodyInside(run: seq<State>, i: nat, t: nat)
    requires IsRun(run, Init, Next) && i < |run| && t < |run[i].senders|
    requires !run[i].stop.Running? && !run[i].stop.Closing?
    ensures !run[i].senders[t].sync && (run[i].senders[t].pc.Idle? || run[i].senders[t].pc.Given?)
  {
    InvInEveryRun(run, i);
    SenderHolds(run[i], t);
  }

  // ---- what became of the messages ----

  function Count(messages: seq<Message>, m: Message): nat {
    multiset(messages)[m]
  }

  function Messages(items: seq<Item>): seq<Message> {
    seq(|items|, i requires 0 <= i < |items| => items[i].message)
  }

  function Unsent(m: Message, worker: Worker): nat {
    if worker.Sending? && worker.item.message == m then 1 else 0
  }

  /** A message leaves the senders' and queue's hands refused, dropped or taken; what was taken is sent, then freed. */
  ghost predicate Told(s: State, m: Message) {
    && Count(s.past.refused, m) + Count(s.past.dropped, m) + Count(s.past.taken, m)
       == Total(s.freed, InFree, m) + Total(s.workers, InWorker, m)
    && Count(s.past.sent, m) + Total(s.workers, Unsent, m) == Count(s.past.taken, m)
  }

  /** Items are taken in the order they were inserted. */
  ghost predicate FirstInFirstOut(s: State) {
    s.past.inserted == s.past.taken + Messages(s.queue) + Messages(Ring(s))
  }

  /** A single queue thread sends in that order too. */
  ghost predicate OneInOrder(s: State) {
    |s.workers| == 1 ==>
      s.past.taken == s.past.sent + if s.workers[0].Sending? then [s.workers[0].item.message] else []
  }

  ghost predicate Recorded(s: State) {
    && (forall m :: Told(s, m)) && FirstInFirstOut(s) && OneInOrder(s)
    && (s.stop.Draining? || s.stop.Stopped? ==> forall w :: 0 <= w < |s.workers| ==> s.workers[w].Exited?)
    && (Abandoned(s) ==> s.queue == [])
  }

  lemma SenderTold(s: State, e: Step, m: Message)
    requires Enabled(s, e) && BySender(e) && Told(s, m)
    ensures Told(After(s, e), m)
  {
    var s' := After(s, e);
    if s'.freed != s.freed {
      TotalAppend(s.freed, [s'.freed[|s.freed|]], InFree, m);
    }
  }

  lemma RemoveTold(s: State, w: nat, m: Message)
    requires Enabled(s, Remove(w)) && Told(s, m)
    ensures Told(After(s, Remove(w)), m)
  {
    var s' := After(s, Remove(w));
    TotalUpdate(s.workers, w, s'.workers[w], InWorker, m);
    TotalUpdate(s.workers, w, s'.workers[w], Unsent, m);
  }

  lemma SendTold(s: State, w: nat, m: Message)
    requires Enabled(s, Send(w)) && Told(s, m)
    ensures Told(After(s, Send(w)), m)
  {
    var s' := After(s, Send(w));
    TotalUpdate(s.workers, w, s'.workers[w], InWorker, m);
    TotalUpdate(s.workers, w, s'.workers[w], Unsent, m);
  }

  lemma FreeTold(s: State, w: nat, m: Message)
    requires Enabled(s, FreeItem(w)) && Told(s, m)
    ensures Told(After(s, FreeItem(w)), m)
  {
    var s' := After(s, FreeItem(w));
    TotalUpdate(s.workers, w, s'.workers[w], InWorker, m);
    TotalUpdate(s.workers, w, s'.workers[w], Unsent, m);
    TotalAppend(s.freed, [ItemFree(s.workers[w].item)], InFree, m);
  }

  lemma StopTold(s: State, e: Step, m: Message)
    requires Enabled(s, e) && !BySender(e) && !e.Remove? && !e.Send? && !e.FreeItem? && Told(s, m)
    ensures Told(After(s, e), m)
  {
    if e.DrainOne? {
      TotalAppend(s.freed, [ItemFree(s.stop.ring[0])], InFree, m);
    }
  }

  lemma MessagesSplit(items: seq<Item>, more: seq<Item>)
    ensures Messages(items + more) == Messages(items) + Messages(more)
    ensures items != [] ==> Messages(items) == [items[0].message] + Messages(items[1..])
  {
  }

  /** While the queue is not abandoned there is no ring: inserting and taking work on the queue alone. */
  lemma QueueOrderKept(s: State, e: Step)
    requires Enabled(s, e) && FirstInFirstOut(s) && (e.Insert? || e.Remove?) && !Abandoned(s)
    ensures FirstInFirstOut(After(s, e))
  {
    var s' := After(s, e);
    assert Ring(s) == Ring(s') == [] && Messages([]) == [];
    MessagesSplit(s.queue, if e.Insert? then [s.senders[e.t].pc.item] else []);
  }

  lemma StopOrderKept(s: State, e: Step)
    requires Enabled(s, e) && FirstInFirstOut(s) && (e.AbandonQueue? || e.DrainOne?) && (Abandoned(s) ==> s.queue == [])
    ensures FirstInFirstOut(After(s, e))
  {
    if e.AbandonQueue? {
      assert Ring(s) == [] && Messages([]) == [];
    } else {
      MessagesSplit(s.stop.ring, []);
      assert s.past.taken + [s.stop.ring[0].message] + Messages(s.queue) + Messages(s.stop.ring[1..])
          == s.past.taken + [s.stop.ring[0].message] + Messages(s.stop.ring[1..]) by {
        assert s.queue == [];
      }
    }
  }

  lemma OrderKept(s: State, e: Step)
    requires Enabled(s, e) && FirstInFirstOut(s) && (Abandoned(s) ==> s.queue == []) && Silent(s)
    ensures FirstInFirstOut(After(s, e))
  {
    if e.Insert? {
      SenderHoldsNone(s, e.t);
    }
    if (e.Insert? || e.Remove?) && !Abandoned(s) {
      QueueOrderKept(s, e);
    } else if e.AbandonQueue? || e.DrainOne? {
      StopOrderKept(s, e);
    } else {
      var s' := After(s, e);
      assert Ring(s') == Ring(s) && s'.queue == s.queue;
      assert s'.past.inserted == s.past.inserted && s'.past.taken == s.past.taken;
    }
  }

  /** Who inserts holds the rundown, so the queue has not been abandoned. */
  lemma SenderHoldsNone(s: State, t: nat)
    requires Silent(s) && t < |s.senders| && s.senders[t].pc.Ready?
    ensures !Abandoned(s)
  {
    if Abandoned(s) {
      SenderHolds(s, t);
    }
  }

  lemma OneInOrderKept(s: State, e: Step)
    requires Enabled(s, e) && OneInOrder(s)
    requires s.stop.Draining? || s.stop.Stopped? ==> forall w :: 0 <= w < |s.workers| ==> s.workers[w].Exited?
    ensures OneInOrder(After(s, e))
  {
  }

  lemma RecordKept(s: State, s': State)
    requires Inv(s) && Recorded(s) && Next(s, s')
    ensures Inv(s') && Recorded(s')
  {
    StepKeepsInv(s, s');
    var e :| Enabled(s, e) && s' == After(s, e);
    forall m ensures Told(s', m) {
      hide Told, Inv, FirstInFirstOut, OneInOrder, After, Enabled;
      if BySender(e) {
        SenderTold(s, e, m);
      } else if e.Remove? {
        RemoveTold(s, e.w, m);
      } else if e.Send? {
        SendTold(s, e.w, m);
      } else if e.FreeItem? {
        FreeTold(s, e.w, m);
      } else {
        StopTold(s, e, m);
      }
    }
    OrderKept(s, e);
    OneInOrderKept(s, e);
  }

  lemma RecordedInEveryRun(run: seq<State>, i: nat)
    requires IsRun(run, Init, Next) && i < |run|
    ensures Inv(run[i]) && Recorded(run[i])
  {
    var inv := (s: State) => Inv(s) && Recorded(s);
    forall s | Init(s) ensures inv(s) {
      InitHolds(s);
      forall m ensures Told(s, m) {
        TotalZero(s.workers, InWorker, m);
        TotalZero(s.workers, Unsent, m);
      }
    }
    forall s, s' | inv(s) && Next(s, s') ensures inv(s') { RecordKept(s, s'); }
    hide Inv, Recorded, Init, Next;
    InvariantOnRun(run, Init, Next, inv);
  }

  lemma NoneUnsent(workers: seq<Worker>, m: Message)
    requires Total(workers, InWorker, m) == 0
    ensures Total(workers, Unsent, m) == 0
  {
    forall w | 0 <= w < |workers| ensures Unsent(m, workers[w]) == 0 { TotalAtLeast(workers, w, InWorker, m); }
    TotalZero(workers, Unsent, m);
  }

  /** A message that was freed was refused, dropped, or sent: one of these, once. */
  lemma FreedAfterItsFate(run: seq<State>, i: nat, m: Message)
    requires IsRun(run, Init, Next) && i < |run| && Total(run[i].freed, InFree, m) > 0
    ensures
      var past := run[i].past;
      Count(past.refused, m) + Count(past.dropped, m) + Count(past.sent, m) == 1
  {
    RecordedInEveryRun(run, i);
    var s := run[i];
    assert Told(s, m) && Places(s, m) <= 1;
    NoneUnsent(s.workers, m);
  }

  /** Everywhere along a run, messages are taken in the order inserted, and sent in it by a single queue thread. */
  lemma TakenInOrder(run: seq<State>, i: nat)
    requires IsRun(run, Init, Next) && i < |run|
    ensures run[i].past.taken <= run[i].past.inserted
    ensures |run[i].workers| == 1 ==> run[i].past.sent <= run[i].past.inserted
  {
    RecordedInEveryRun(run, i);
  }

  /**
   When stop has returned everything inserted was taken in that order and sent, each message once,
   and every message was refused, dropped or sent, once, unless a sender is just about to be refused.
   */
  lemma StoppedDelivered(run: seq<State>, i: nat, m: Message)
    requires IsRun(run, Init, Next) && i < |run| && run[i].stop.Stopped? && m in run[i].created
    ensures run[i].past.taken == run[i].past.inserted && Count(run[i].past.sent, m) == Count(run[i].past.inserted, m)
    ensures
      var past := run[i].past;
      || Count(past.refused, m) + Count(past.dropped, m) + Count(past.sent, m) == 1
      || exists t :: 0 <= t < |run[i].senders| && run[i].senders[t].pc == Given(m, m.pool)
  {
    RecordedInEveryRun(run, i);
    StoppedIsEmpty(run, i, m);
    var s := run[i];
    assert Told(s, m) && Ring(s) == [] && Messages([]) == [];
    TotalZero(s.workers, InWorker, m);
    NoneUnsent(s.workers, m);
    if Total(s.freed, InFree, m) == 1 {
      FreedAfterItsFate(run, i, m);
    }
  }

  // ---- the history tells what happened ----

  ghost predicate Moves(s: State, e: Step, s': State) {
    Enabled(s, e) && s' == After(s, e)
  }

  /** The sender of `e` is refused because the rundown has begun. */
  predicate Refuses(s: State, e: Step, m: Message) {
    e.Acquire? && Enabled(s, e) && Closed(s) && s.senders[e.t].pc.message == m
  }

  /** The sender of `e` gets no item for its message. */
  predicate Drops(s: State, e: Step, m: Message) {
    e.Allocate? && !e.ok && Enabled(s, e) && s.senders[e.t].pc.message == m
  }

  /** A queue thread or stop sends the message. */
  predicate Sends(s: State, e: Step, m: Message) {
    (e.Send? && Enabled(s, e) && s.workers[e.w].item.message == m)
    || (e.DrainOne? && Enabled(s, e) && s.stop.ring[0].message == m)
  }

  lemma HistoryMoves(s: State, e: Step, s': State, m: Message)
    requires Moves(s, e, s')
    ensures Count(s'.past.refused, m) == Count(s.past.refused, m) + if Refuses(s, e, m) then 1 else 0
    ensures Count(s'.past.dropped, m) == Count(s.past.dropped, m) + if Drops(s, e, m) then 1 else 0
    ensures Count(s'.past.sent, m) == Count(s.past.sent, m) + if Sends(s, e, m) then 1 else 0
  {
  }

  /** The moves before `k` that meet `p`. */
  ghost function Times(run: seq<State>, trace: seq<Step>, p: (State, Step, Message) -> bool, m: Message, k: nat): nat
    requires |run| == |trace| + 1 && k <= |trace|
  {
    if k == 0 then 0 else Times(run, trace, p, m, k - 1) + if p(run[k - 1], trace[k - 1], m) then 1 else 0
  }

  /** Read off the moves of a run: how often a message was refused, dropped and sent so far. */
  lemma {:induction false} HistoryIsTrue(run: seq<State>, trace: seq<Step>, m: Message, k: nat)
    requires IsTrace(run, trace, Init, Moves) && k <= |trace|
    ensures Count(run[k].past.refused, m) == Times(run, trace, Refuses, m, k)
    ensures Count(run[k].past.dropped, m) == Times(run, trace, Drops, m, k)
    ensures Count(run[k].past.sent, m) == Times(run, trace, Sends, m, k)
  {
    if k > 0 {
      HistoryIsTrue(run, trace, m, k - 1);
      assert Moves(run[k - 1], trace[k - 1], run[k - 1 + 1]);
      hide Moves, Init, Refuses, Drops, Sends;
      HistoryMoves(run[k - 1], trace[k - 1], run[k], m);
    }
  }

  /** A synchronous send is let in exactly while stop has not begun, and is inside until it ends. */
  lemma SyncIsAdmitted(s: State, e: Step, s': State)
    requires Moves(s, e, s') && (e.BeginSync? || e.EndSync?)
    ensures e.t < |s'.senders| && (s'.senders[e.t].sync <==> e.BeginSync? && s.stop.Running?)
    ensures s'.stop == s.stop && s'.queue == s.queue && s'.freed == s.freed
  {
  }

  // ---- an accepted message is sent ----

  /** No sender has the message and may still be refused or get no item. */
  function Early(m: Message, sender: Sender): nat {
    match sender.pc
    case Given(x, _) => if x == m then 1 else 0
    case Acquired(x, _) => if x == m then 1 else 0
    case _ => 0
  }

  ghost predicate Accepted(s: State, m: Message) {
    && m in s.created && Count(s.past.refused, m) == 0 && Count(s.past.dropped, m) == 0
    && Total(s.senders, Early, m) == 0
  }

  /** Only a new message can come to a sender early. */
  lemma EarlyStays(s: State, e: Step, m: Message)
    requires Enabled(s, e) && m in s.created && Total(s.senders, Early, m) == 0
    ensures Total(After(s, e).senders, Early, m) == 0
  {
    if BySender(e) {
      TotalAtLeast(s.senders, e.t, Early, m);
      TotalUpdate(s.senders, e.t, After(s, e).senders[e.t], Early, m);
    }
  }

  lemma AcceptedStays(s: State, s': State, m: Message)
    requires Accepted(s, m) && Next(s, s')
    ensures Accepted(s', m)
  {
    var e :| Enabled(s, e) && s' == After(s, e);
    EarlyStays(s, e, m);
    HistoryMoves(s, e, s', m);
    if Refuses(s, e, m) || Drops(s, e, m) {
      TotalAtLeast(s.senders, e.t, Early, m);
    }
    assert m in s'.created;
    hide After, Enabled;
  }

  lemma AllocatedIsAccepted(s: State, s': State, t: nat, m: Message)
    requires Inv(s) && Recorded(s) && Moves(s, Allocate(t, true), s') && s.senders[t].pc.message == m
    ensures Accepted(s', m)
  {
    assert Told(s, m) && Places(s, m) <= 1;
    TotalAtLeast(s.senders, t, InSender, m);
    TotalUpdate(s.senders, t, s'.senders[t], InSender, m);
    TotalUpdate(s.senders, t, s'.senders[t], Early, m);
    EarlyIsInSender(s.senders, m);
    HistoryMoves(s, Allocate(t, true), s', m);
  }

  lemma {:induction false} EarlyIsInSender(senders: seq<Sender>, m: Message)
    ensures Total(senders, Early, m) <= Total(senders, InSender, m)
  {
    if senders != [] {
      EarlyIsInSender(senders[1..], m);
    }
  }

  /** A message whose item was allocated is sent exactly once by the time stop has returned. */
  lemma AcceptedIsSent(run: seq<State>, trace: seq<Step>, t: nat, k: nat, i: nat, m: Message)
    requires IsTrace(run, trace, Init, Moves) && k < i < |run| && run[i].stop.Stopped?
    requires trace[k] == Allocate(t, true) && Enabled(run[k], trace[k]) && run[k].senders[t].pc.message == m
    ensures Times(run, trace, Sends, m, i) == 1
  {
    hide Enabled, After;
    RunOfTrace(run, trace);
    RecordedInEveryRun(run, k);
    MoveAt(run, trace, k);
    AllocatedIsAccepted(run[k], run[k + 1], t, m);
    StillAccepted(run, k + 1, i, m);
    StoppedDelivered(run, i, m);
    NotGiven(run[i], m);
    HistoryIsTrue(run, trace, m, i);
  }

  lemma MoveAt(run: seq<State>, trace: seq<Step>, k: nat)
    requires IsTrace(run, trace, Init, Moves) && k < |trace|
    ensures k + 1 < |run| && Moves(run[k], trace[k], run[k + 1])
  {
    hide Moves, Init;
  }

  lemma RunOfTrace(run: seq<State>, trace: seq<Step>)
    requires IsTrace(run, trace, Init, Moves)
    ensures IsRun(run, Init, Next)
  {
    hide Init, After, Enabled;
    TraceIsRun(run, trace, Init, Moves, Next);
  }

  lemma StillAccepted(run: seq<State>, k: nat, i: nat, m: Message)
    requires IsRun(run, Init, Next) && k <= i < |run| && Accepted(run[k], m)
    ensures Accepted(run[i], m)
  {
    forall s, s' | Accepted(s, m) && Next(s, s') ensures Accepted(s', m) { AcceptedStays(s, s', m); }
    hide Init, Next, Accepted;
    StaysOnRun(run, Init, Next, (s: State) => true, (s: State) => Accepted(s, m), k, i);
  }

  lemma NotGiven(s: State, m: Message)
    requires Accepted(s, m)
    ensures forall t :: 0 <= t < |s.senders| ==> s.senders[t].pc != Given(m, m.pool)
  {
    forall t | 0 <= t < |s.senders| ensures s.senders[t].pc != Given(m, m.pool) { TotalAtLeast(s.senders, t, Early, m); }
  }

  // ---- stop ends ----

  function SenderWork(k: nat, sender: Sender): nat {
    (if sender.sync then 1 else 0)
    + match sender.pc
      case Idle => 0
      case Releasing => 1
      case Ready(_) => 5
      case Acquired(_, _) => 6
      case Given(_, _) => 7
  }

  function WorkerWork(k: nat, worker: Worker): nat {
    match worker
    case Exited => 0
    case Waiting => 1
    case Sent(_) => 2
    case Sending(_) => 3
  }

  /** What is left to do before stop returns, if nothing new is begun. */
  function Work(s: State): nat {
    Total(s.senders, SenderWork, 0) + Total(s.workers, WorkerWork, 0) + 3 * (|s.queue| + |Ring(s)|)
    + match s.stop
      case Running => 5
      case Closing => 4
      case Quiet => 3
      case Joining(_) => 2
      case Draining(_) => 1
      case Stopped => 0
  }

  lemma SenderReducesWork(s: State, e: Step)
    requires Enabled(s, e) && BySender(e) && !e.Give? && !e.BeginSync?
    ensures Work(After(s, e)) < Work(s)
  {
    TotalUpdate(s.senders, e.t, After(s, e).senders[e.t], SenderWork, 0);
    assert Ring(After(s, e)) == Ring(s);
  }

  lemma WorkerReducesWork(s: State, e: Step)
    requires Enabled(s, e) && (e.Remove? || e.Send? || e.FreeItem?)
    ensures Work(After(s, e)) < Work(s)
  {
    TotalUpdate(s.workers, e.w, After(s, e).workers[e.w], WorkerWork, 0);
    assert Ring(After(s, e)) == Ring(s);
  }

  lemma StopReducesWork(s: State, e: Step)
    requires Enabled(s, e) && !BySender(e) && !e.Remove? && !e.Send? && !e.FreeItem?
    ensures Work(After(s, e)) < Work(s)
  {
  }

  /** Every step but a new message or a new synchronous send brings the end nearer. */
  lemma StepReducesWork(s: State, e: Step)
    requires Enabled(s, e) && !e.Give? && !e.BeginSync?
    ensures Work(After(s, e)) < Work(s)
  {
    hide Work, After, Enabled;
    if BySender(e) {
      SenderReducesWork(s, e);
    } else if e.Remove? || e.Send? || e.FreeItem? {
      WorkerReducesWork(s, e);
    } else {
      StopReducesWork(s, e);
    }
  }

  /** Until stop has returned, such a step is possible. */
  lemma StopProceeds(s: State) returns (e: Step)
    requires Inv(s) && !s.stop.Running? && !s.stop.Stopped?
    ensures Enabled(s, e) && !e.Give? && !e.BeginSync?
  {
    match s.stop
    case Closing =>
      if Total(s.senders, Holds, 0) == 0 {
        e := RundownComplete;
      } else {
        var t := TotalWitness(s.senders, Holds, 0);
        match s.senders[t].pc
        case Acquired(_, _) => e := Allocate(t, true);
        case Ready(_) => e := Insert(t);
        case Releasing => e := Release(t);
        case Given(_, _) => e := Acquire(t);
        case Idle => e := EndSync(t);
      }
    case Quiet => e := AbandonQueue;
    case Joining(_) =>
      if w: nat :| w < |s.workers| && !s.workers[w].Exited? {
        e := if s.workers[w].Waiting? then Remove(w) else if s.workers[w].Sending? then Send(w) else FreeItem(w);
      } else {
        e := ThreadsExited;
      }
    case Draining(ring) => e := if ring == [] then EndStop else DrainOne;
  }
}
