/**
 A filtered file operation from the pre operation callback to the end of the post operation
 callback: who owns the messages, the file names and the completion context, and that every close
 gets reaped.
 */
module FileOperations {
  import opened Basics

  type File = nat

  datatype Major = MajorCreate | MajorClose | MajorSetInformation | MajorShutdown | MajorOther

  datatype PreStatus = NoCallback | WithCallback | Complete

  /**
   Which messages and replies the settings ask for, and whether clients, when asked, want the
   operation failed; `skipped` for a paging request the settings exclude, `renames` for a
   set-information request that names a destination.
   */
  datatype Operation = Operation(
    file: File,
    major: Major,
    preEnabled: bool,
    postEnabled: bool,
    skipped: bool,
    renames: bool,
    tunneling: bool,
    postFileNames: bool,
    preCreateReply: bool,
    preDenied: bool,
    postCreateReply: bool,
    postDenied: bool)

  /** Some message is wanted for the operation. */
  predicate Wanted(op: Operation) {
    (op.preEnabled || op.postEnabled) && !op.skipped
  }

  /** A client fails the creation before it happens. */
  predicate DeniedBefore(op: Operation) {
    Wanted(op) && op.preEnabled && op.major.MajorCreate? && op.preCreateReply && op.preDenied
  }

  /** A client has the created file closed again. */
  predicate DeniedAfter(op: Operation, draining: Draining) {
    && Wanted(op) && op.postEnabled && !DeniedBefore(op) && !draining
    && op.major.MajorCreate? && op.postCreateReply && op.postDenied
  }

  /** The messages queued for an operation, none if clients are asked for a reply instead. */
  function PreMessages(op: Operation): nat {
    if Wanted(op) && op.preEnabled && !(op.major.MajorCreate? && op.preCreateReply) then 1 else 0
  }

  function PostMessages(op: Operation, draining: Draining): nat {
    if Wanted(op) && op.postEnabled && !DeniedBefore(op) && (op.major.MajorShutdown? || !draining)
       && !(op.major.MajorCreate? && op.postCreateReply) then 1 else 0
  }

  /** A file name the callback looked up; all but none own one reference. */
  datatype FileName = NoName | NormalizedInfo | OtherName

  /** Only creations and set-information requests can tunnel names. */
  predicate NameTunnelingPossible(op: Operation) {
    op.tunneling && (op.major.MajorCreate? || op.major.MajorSetInformation?)
  }

  function References(name: FileName): nat {
    if name.NoName? then 0 else 1
  }

  /** The name information references a completion context takes for the post operation. */
  function ContextNames(op: Operation, name: FileName, destination: FileName): nat {
    if !op.postFileNames || !NameTunnelingPossible(op) then 0
    else
      (if name.NormalizedInfo? then 1 else 0)
      + (if op.major.MajorSetInformation? && destination.NormalizedInfo? then 1 else 0)
  }

  /** A completion context; `nameInfos` are the file name references it holds. */
  datatype Context = Context(message: bool, nameInfos: nat)

  /** Whether the post operation is called because the filter is being torn down. */
  type Draining = bool

  class Filter {
    /** Allocated completion contexts, messages owned and not handed over, references to file names held. */
    var contexts: int
    var messages: int
    var nameInfos: int
    /** The file objects whose cache entries were reaped, in order. */
    var reaped: seq<File>
    /** Messages handed over to the asynchronous queue. */
    var sent: nat
    /** Files whose creation was undone, in order. */
    var cancelled: seq<File>
    /** Allocations and synchronous sends that failed so far. */
    ghost var failures: nat

    ghost predicate Balanced(contexts: int, messages: int, nameInfos: int)
      reads this
    {
      this.contexts == contexts && this.messages == messages && this.nameInfos == nameInfos
    }

    constructor ()
      ensures Balanced(0, 0, 0) && reaped == [] && sent == 0 && cancelled == []
    {
      contexts, messages, nameInfos, reaped, sent, cancelled, failures := 0, 0, 0, [], 0, [], 0;
    }

    method FreeContext(c: Context)
      modifies this`contexts, this`messages, this`nameInfos
      ensures Balanced(old(contexts) - 1, old(messages) - (if c.message then 1 else 0), old(nameInfos) - c.nameInfos)
    {
      if c.message {
        messages := messages - 1;
      }
      nameInfos := nameInfos - c.nameInfos;
      contexts := contexts - 1;
    }

    /** Look a file name up; it may not be found. */
    method GetFileName() returns (name: FileName)
      modifies this`nameInfos
      ensures nameInfos == old(nameInfos) + References(name)
    {
      name := NoName;
      if * {
        nameInfos, name := nameInfos + 1, NormalizedInfo;
      } else if * {
        nameInfos, name := nameInfos + 1, OtherName;
      }
    }

    method ReleaseFileName(name: FileName)
      modifies this`nameInfos
      ensures nameInfos == old(nameInfos) - References(name)
    {
      if !name.NoName? {
        nameInfos := nameInfos - 1;
      }
    }

    /** A context with its message and the name references the post operation will need, or nothing at all. */
    method CreateContext(op: Operation, name: FileName, destination: FileName) returns (context: Option<Context>)
      modifies this`contexts, this`messages, this`nameInfos, this`failures
      ensures failures == old(failures) + if context.None? then 1 else 0
      ensures context.None? ==> Balanced(old(contexts), old(messages), old(nameInfos))
      ensures context.Some? ==>
        && context.value == Context(true, ContextNames(op, name, destination))
        && Balanced(old(contexts) + 1, old(messages) + 1, old(nameInfos) + context.value.nameInfos)
    {
      if * {
        failures := failures + 1;
        return None;
      }
      contexts := contexts + 1;
      if * {
        failures := failures + 1;
        FreeContext(Context(false, 0));
        return None;
      }
      messages := messages + 1;
      var names: nat := 0;
      if op.postFileNames && NameTunnelingPossible(op) {
        if name.NormalizedInfo? {
          nameInfos, names := nameInfos + 1, 1;
        }
        if !op.major.MajorCreate? {
          assert op.major.MajorSetInformation?;
          if destination.NormalizedInfo? {
            nameInfos, names := nameInfos + 1, names + 1;
          }
        }
      }
      context := Some(Context(true, names));
    }

    /**
     Send the pre operation message, to the queue or, for a creation a client may fail, and wait for
     the reply. Either way the message is no longer owned, and only a creation can be failed.
     */
    method PreOpSend(op: Operation) returns (status: PreStatus)
      modifies this`messages, this`sent, this`failures
      ensures messages == old(messages) && !status.WithCallback? && failures >= old(failures)
      ensures status.Complete? ==> failures == old(failures)
      ensures failures == old(failures) ==>
        (status.Complete? <==> op.major.MajorCreate? && op.preCreateReply && op.preDenied)
      ensures failures == old(failures) ==>
        sent == old(sent) + if op.major.MajorCreate? && op.preCreateReply then 0 else 1
      ensures failures > old(failures) ==> sent == old(sent)
    {
      if * {
        failures := failures + 1;
        return NoCallback;
      }
      messages := messages + 1;
      if !op.major.MajorCreate? || !op.preCreateReply {
        sent, messages := sent + 1, messages - 1;
        return NoCallback;
      }
      var denied := WaitForReply(op.preDenied);
      messages := messages - 1;
      status := if denied then Complete else NoCallback;
    }

    /** The pre operation callback. */
    method PreOp(op: Operation) returns (status: PreStatus, context: Option<Context>)
      modifies this
      ensures op.major.MajorClose? ==> status.WithCallback?
      ensures context.Some? ==> status.WithCallback? && context.value.message && Wanted(op)
      ensures status.WithCallback? && !op.major.MajorClose? ==> context.Some?
      ensures reaped == old(reaped) && cancelled == old(cancelled) && failures >= old(failures)
      ensures failures == old(failures) ==>
        && (status.Complete? <==> DeniedBefore(op))
        && (context.Some? <==> Wanted(op) && op.postEnabled && !DeniedBefore(op) && !op.major.MajorShutdown?)
        && sent == old(sent) + PreMessages(op) + (if op.major.MajorShutdown? then PostMessages(op, false) else 0)
      ensures match context
              case None => Balanced(old(contexts), old(messages), old(nameInfos))
              case Some(c) => Balanced(old(contexts) + 1, old(messages) + 1, old(nameInfos) + c.nameInfos)
    {
      status, context := NoCallback, None;
      if (op.preEnabled || op.postEnabled) && !op.skipped {
        var name := GetFileName();
        var destination := NoName;
        if op.major.MajorSetInformation? && op.renames {
          destination := GetFileName();
        }
        status, context := Gather(op, name, destination);
        ReleaseFileName(destination);
        ReleaseFileName(name);
      }
      if status != WithCallback && op.major.MajorClose? {
        assert status != Complete;
        status := WithCallback;
      }
    }

    /** With the names at hand: send the pre operation message, then create what the post operation needs. */
    method Gather(op: Operation, name: FileName, destination: FileName) returns (status: PreStatus, context: Option<Context>)
      requires Wanted(op)
      modifies this
      ensures status.WithCallback? <==> context.Some?
      ensures status.Complete? ==> DeniedBefore(op)
      ensures context.Some? ==> op.postEnabled && context.value == Context(true, ContextNames(op, name, destination))
      ensures reaped == old(reaped) && cancelled == old(cancelled) && failures >= old(failures)
      ensures failures == old(failures) ==>
        && (status.Complete? <==> DeniedBefore(op))
        && (context.Some? <==> op.postEnabled && !DeniedBefore(op) && !op.major.MajorShutdown?)
        && sent == old(sent) + PreMessages(op) + (if op.major.MajorShutdown? then PostMessages(op, false) else 0)
      ensures match context
              case None => Balanced(old(contexts), old(messages), old(nameInfos))
              case Some(c) => Balanced(old(contexts) + 1, old(messages) + 1, old(nameInfos) + c.nameInfos)
    {
      status, context := NoCallback, None;
      if op.preEnabled {
        status := PreOpSend(op);
        if status.Complete? {
          return;
        }
      }
      if op.postEnabled {
        context := CreateContext(op, name, destination);
        if context.Some? {
          if op.major.MajorShutdown? {
            PostOp(op, context, false);
            context := None;
          } else {
            status := WithCallback;
          }
        }
      }
    }

    /** The post operation callback; a close is reaped on every path, with or without a context. */
    method PostOp(op: Operation, context: Option<Context>, draining: Draining)
      requires context.Some? ==> context.value.message
      modifies this
      ensures reaped == if op.major.MajorClose? then old(reaped) + [op.file] else old(reaped)
      ensures failures >= old(failures)
      ensures context.None? ==>
        Balanced(old(contexts), old(messages), old(nameInfos)) && sent == old(sent) && cancelled == old(cancelled)
        && failures == old(failures)
      ensures context.Some? ==> Balanced(old(contexts) - 1, old(messages) - 1, old(nameInfos) - context.value.nameInfos)
      ensures context.Some? ==>
        sent == old(sent) + if !draining && !(op.major.MajorCreate? && op.postCreateReply) then 1 else 0
      ensures context.Some? && failures == old(failures) ==>
        cancelled == old(cancelled)
                     + if !draining && op.major.MajorCreate? && op.postCreateReply && op.postDenied then [op.file] else []
      ensures failures > old(failures) ==> cancelled == old(cancelled) && op.major.MajorCreate?
    {
      if context.Some? {
        var c := context.value;
        if !draining {
          if !op.major.MajorCreate? || !op.postCreateReply {
            // the queue owns the message from here on
            sent, messages := sent + 1, messages - 1;
            c := c.(message := false);
          } else {
            var denied := WaitForReply(op.postDenied);
            if denied {
              cancelled := cancelled + [op.file];
            }
          }
        }
        FreeContext(c);
      }
      if op.major.MajorClose? {
        reaped := reaped + [op.file];
      }
    }

    /** Send synchronously and look at the reply, unless it could not be allocated or the send fails; it is freed either way. */
    method WaitForReply(denies: bool) returns (denied: bool)
      modifies this`messages, this`failures
      ensures messages == old(messages)
      ensures if failures == old(failures) then denied == denies else failures == old(failures) + 1 && !denied
    {
      denied := false;
      if * {
        failures := failures + 1;
        return;
      }
      messages := messages + 1;
      if * {
        failures := failures + 1;
      } else {
        denied := denies;
      }
      messages := messages - 1;
    }

    /**
     A whole operation: the filter manager calls the post operation exactly when the pre operation
     asked for it. Nothing is leaked; a close, and only a close, has its file object reaped once;
     and unless something could not be had, the wanted messages are queued, and clients that were
     asked had their way.
     */
    method Run(op: Operation, draining: Draining)
      modifies this
      ensures Balanced(old(contexts), old(messages), old(nameInfos))
      ensures reaped == if op.major.MajorClose? then old(reaped) + [op.file] else old(reaped)
      ensures failures == old(failures) ==>
        && sent == old(sent) + PreMessages(op) + PostMessages(op, draining)
        && cancelled == old(cancelled) + if DeniedAfter(op, draining) then [op.file] else []
    {
      var status, context := PreOp(op);
      if status.WithCallback? {
        PostOp(op, context, draining);
      }
    }
  }
}
