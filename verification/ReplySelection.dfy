/** A message sent to every connected client in turn, and whose reply is kept. */
module ReplySelection {
  import opened Basics

  type Process = nat

  const UNHANDLED: nat := 0

  datatype Message = Message(id: nat, payload: nat)

  datatype Status = Success | Disconnected

  /**
   A connected client and what would happen with it: whether its settings let the message through,
   whether a send succeeds and what reply that leaves in the buffer, whether the reply is valid, its
   process's state, and whether a copy of the message could be allocated for it.
   */
  datatype Client = Client(
    process: Process,
    enabled: bool,
    delivers: bool,
    reply: Message,
    valid: bool,
    maximumState: bool,
    copyAllocated: bool)

  predicate Eligible(c: Client, target: Option<Process>) {
    (target.None? || target.value == c.process) && c.enabled
  }

  /** The client, asked for a reply, gives one that is kept. */
  predicate Answers(c: Client, target: Option<Process>, current: Process) {
    Eligible(c, target) && c.process != current && c.delivers && c.maximumState && c.valid && c.reply.id != UNHANDLED
  }

  /** Client `i` answers and no client before it does. */
  ghost predicate FirstAnswer(clients: seq<Client>, target: Option<Process>, current: Process, i: nat) {
    i < |clients| && Answers(clients[i], target, current)
    && forall j :: 0 <= j < i ==> !Answers(clients[j], target, current)
  }

  /** A client before `n` has answered. */
  ghost predicate Answered(clients: seq<Client>, target: Option<Process>, current: Process, n: nat) {
    exists i :: 0 <= i < n && i < |clients| && Answers(clients[i], target, current)
  }

  /** How client `i` gets the message: directly, or as a copy because it is the process waiting for the reply. */
  ghost predicate GetsCopy(clients: seq<Client>, wanted: bool, target: Option<Process>, current: Process, i: nat)
    requires i < |clients|
  {
    Eligible(clients[i], target) && wanted && clients[i].process == current && !Answered(clients, target, current, i)
  }

  ghost predicate Ascending(xs: seq<nat>, n: nat) {
    (forall i :: 0 <= i < |xs| ==> xs[i] < n) && forall i, j :: 0 <= i < j < |xs| ==> xs[i] < xs[j]
  }

  lemma AscendingAppend(xs: seq<nat>, n: nat)
    requires Ascending(xs, n)
    ensures Ascending(xs + [n], n + 1) && n !in xs
    ensures forall i :: i in xs + [n] <==> i in xs || i == n
  {
    assert (xs + [n])[|xs|] == n;
  }

  /** What the reply buffer holds after the first `n` clients. */
  ghost predicate ReplyOk(clients: seq<Client>, target: Option<Process>, current: Process, n: nat, reply: Message) {
    if Answered(clients, target, current, n)
    then exists i: nat :: i < n && FirstAnswer(clients, target, current, i) && reply == clients[i].reply
    else reply.id == UNHANDLED
  }

  /** Who has been attempted among the first `n` clients: every eligible one, once. */
  ghost predicate AttemptsOk(clients: seq<Client>, wanted: bool, target: Option<Process>, current: Process, n: nat,
                             sent: seq<nat>, copied: seq<nat>)
    requires n <= |clients|
  {
    && Ascending(sent, n) && Ascending(copied, n)
    && (forall i: nat {:trigger i in sent} :: i < n ==>
          (i in sent <==> Eligible(clients[i], target) && !GetsCopy(clients, wanted, target, current, i)))
    && (forall i: nat {:trigger i in copied} :: i < n ==>
          (i in copied <==> GetsCopy(clients, wanted, target, current, i) && clients[i].copyAllocated))
  }

  lemma ReplyNext(clients: seq<Client>, target: Option<Process>, current: Process, n: nat, reply: Message, reply': Message)
    requires n < |clients| && ReplyOk(clients, target, current, n, reply)
    requires if reply.id == UNHANDLED && Answers(clients[n], target, current) then reply' == clients[n].reply
             else if reply.id == UNHANDLED then reply'.id == UNHANDLED
             else reply' == reply
    ensures Answered(clients, target, current, n) <==> reply.id != UNHANDLED
    ensures ReplyOk(clients, target, current, n + 1, reply')
  {
    if reply.id == UNHANDLED && Answers(clients[n], target, current) {
      assert FirstAnswer(clients, target, current, n);
    }
  }

  /**
   Send the message to every eligible client in list order. `sent` and `copied` record which clients
   were sent it directly and which were queued a copy of their own.
   */
  method SendMessage(clients: seq<Client>, wanted: bool, target: Option<Process>, current: Process)
      returns (status: Status, reply: Message, sent: seq<nat>, copied: seq<nat>)
    requires target.Some? ==> !wanted
    ensures status == if clients == [] then Disconnected else Success
    ensures wanted ==> ReplyOk(clients, target, current, |clients|, reply)
    ensures AttemptsOk(clients, wanted, target, current, |clients|, sent, copied)
    ensures !wanted ==> copied == []
  {
    reply := Message(UNHANDLED, 0);
    sent, copied := [], [];
    if clients == [] {
      return Disconnected, reply, sent, copied;
    }
    status := Success;
    var n := 0;
    while n < |clients|
      invariant 0 <= n <= |clients|
      invariant wanted ==> ReplyOk(clients, target, current, n, reply)
      invariant AttemptsOk(clients, wanted, target, current, n, sent, copied)
      invariant !wanted ==> copied == []
    {
      reply, sent, copied := SendToClient(clients, n, wanted, target, current, reply, sent, copied);
      n := n + 1;
    }
  }

  /** One turn of the loop. */
  method SendToClient(clients: seq<Client>, n: nat, wanted: bool, target: Option<Process>, current: Process,
                      reply: Message, sent: seq<nat>, copied: seq<nat>)
      returns (reply': Message, sent': seq<nat>, copied': seq<nat>)
    requires n < |clients| && (target.Some? ==> !wanted)
    requires wanted ==> ReplyOk(clients, target, current, n, reply)
    requires AttemptsOk(clients, wanted, target, current, n, sent, copied)
    requires !wanted ==> copied == []
    ensures wanted ==> ReplyOk(clients, target, current, n + 1, reply')
    ensures AttemptsOk(clients, wanted, target, current, n + 1, sent', copied')
    ensures !wanted ==> copied' == []
  {
    var c := clients[n];
    reply', sent', copied' := reply, sent, copied;
    AscendingAppend(sent, n);
    AscendingAppend(copied, n);
    hide Ascending;
    if target.Some? && target.value != c.process {
      if wanted { ReplyNext(clients, target, current, n, reply, reply'); }
      return;
    }
    if !c.enabled {
      if wanted { ReplyNext(clients, target, current, n, reply, reply'); }
      return;
    }
    var asking := wanted && reply.id == UNHANDLED;
    if asking && current == c.process {
      ReplyNext(clients, target, current, n, reply, reply');
      if c.copyAllocated {
        copied' := copied + [n];
      }
      return;
    }
    sent' := sent + [n];
    if asking {
      reply' := c.reply;
      if !c.delivers || !c.maximumState || !c.valid {
        reply' := Message(UNHANDLED, 0);
      }
    }
    if wanted { ReplyNext(clients, target, current, n, reply, reply'); }
  }

  /** No two clients' replies are ever both kept: the reply is the earliest answering client's, whatever later ones do. */
  lemma LaterClientsIgnored(clients: seq<Client>, more: seq<Client>, target: Option<Process>, current: Process, reply: Message)
    requires ReplyOk(clients, target, current, |clients|, reply) && Answered(clients, target, current, |clients|)
    ensures ReplyOk(clients + more, target, current, |clients + more|, reply)
  {
    var i: nat :| i < |clients| && FirstAnswer(clients, target, current, i) && reply == clients[i].reply;
    assert FirstAnswer(clients + more, target, current, i);
  }
}
