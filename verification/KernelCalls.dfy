/** Every system call, interrupt handler and deferred task keeps the invariant. */
module KernelCalls {
  import opened Outcomes
  import opened RunLoopSpec
  import opened KernelState
  import opened KernelInvariant
  import opened KernelSteps

  /** The halts that stay possible: full tables, and callers that break the rules of a call. */
  predicate Excused(why: Oops) {
    || why == QueueFull || why == ListenerTableFull || why == PayloadTooLarge || why == NotificationRefused
    || why == DeviceInvalid || why == ImageRejected || why == PageNotMapped
    || why == HatchWithoutEntry || why == HatchWithoutHeap
  }

  /** A process is in the middle of a system call of its own. */
  ghost predicate Calling(s: State) {
    && s.kernel.Ready? && s.isr == 1
    && IsUser(s.procs, s.current)
    && s.procs[s.current].state.Running?
    && (forall p :: 0 <= p < |s.procs| ==> !s.procs[p].state.Finished?)
  }

  /** A process that has the processor outside its own ending leaves no process half gone. */
  lemma NobodyFinished(s: State)
    requires Inv(s) && s.kernel.Ready? && s.isr == 0
    ensures Calling(s.(isr := 1)) && Inv(s.(isr := 1)) && s.todo == []
    ensures ListenersAlive(s)
  {
  }

  lemma LiveListeners(s: State)
    requires Inv(s) && Calling(s)
    ensures ListenersAlive(s) && Interruptible(s)
    ensures Known(s.procs, s.todo, s.current, 1)
  {
  }

  // ---------------------------------------------------------------- sending

  lemma PermittedIsCovered(s: State, l: Listener)
    requires Inv(s) && IsUser(s.procs, s.current)
    requires Permitted(s.bindings, s.current, l)
    ensures Covered(s.log, BoundMessage(s.current, l.procId, l.mask))
  {
    var i := FindBinding(s.bindings, s.current, l.procId, 0);
    FoundBinding(s.bindings, s.current, l.procId, 0);
    GrantCovers(s.log, l.procId, s.current, s.bindings[i].permissions, l.mask);
  }

  lemma GrantCovers(log: seq<Event>, granter: int, grantee: int, permissions: bv32, mask: bv32)
    requires GrantLive(log, granter, grantee, permissions) && Includes(permissions, mask)
    ensures Covered(log, BoundMessage(grantee, granter, mask))
  {
  }

  lemma QuietKeepsRefs(s: State, s': State)
    requires Quiet(s.(replies := s'.replies, bindings := s'.bindings, log := s'.log), s')
    ensures forall q, k :: Known(s.procs, s.todo, q, k) ==> Known(s'.procs, s'.todo, q, k)
    ensures ListenersAlive(s) ==> ListenersAlive(s')
    ensures Interruptible(s) ==> Interruptible(s')
  {
  }

  /** There is room for the message, but it is larger than a place in a run loop. */
  predicate IsTooLarge(s: State, l: Listener, q: Query) {
    && QUERY_HEADER_BYTES + q.bytes > DISPATCH_MAX_DATA_SIZE_BYTES
    && 0 <= l.procId < |s.loops| && !IsFull(s.loops[l.procId])
  }

  lemma ReceiverLives(s: State, l: Listener, q: Query)
    requires Inv(s) && Calling(s) && Known(s.procs, s.todo, l.procId, 1)
    ensures s.procs[l.procId].Alive()
    ensures var r := TakeToken(s, s.current, l.procId, q.replyBytes);
            r.Ok? ==> |r.value.0.procs| == |s.procs| && r.value.0.procs[l.procId].Alive()
  {
    hide TablesOk, HistoryOk, StartupOk, SchedOk;
  }

  lemma SendToKeeps(s: State, l: Listener, q: Query)
    requires Inv(s) && Calling(s)
    requires Known(s.procs, s.todo, l.procId, 1)
    requires l.bindingRequired ==> Covered(s.log, BoundMessage(s.current, l.procId, l.mask))
    ensures match SendTo(s, s.current, l, q)
            case Ok((s', _)) => Inv(s') && !IsTooLarge(s, l, q)
            case Halt(why) => why == QueueFull || why == NotificationRefused || (why == PayloadTooLarge && IsTooLarge(s, l, q))
  {
    hide TablesOk, HistoryOk, StartupOk, SchedOk, ModeOk, TakeToken, Deliver, ApplyBind;
    LiveListeners(s);
    LoopsAreOk(s);
    var p := s.current;
    var r1: Outcome<(State, nat)> := if q.replyBytes == 0 then Ok((s, |s.replies|)) else TakeToken(s, p, l.procId, q.replyBytes);
    if q.replyBytes != 0 {
      TakeTokenKeeps(s, l.procId, q.replyBytes);
    }
    if r1.Ok? {
      TakenKeepsRefs(s, l, q);
      ReceiverLives(s, l, q);
      var (s1, token) := r1.value;
      DeliverKeeps(s1, l, p, q.bytes, q.replyBytes, token);
      var r2 := Deliver(s1, l, p, q.bytes, q.replyBytes, token);
      if r2.Ok? && r2.value.1 == NoError {
        var s2 := r2.value.0;
        QuietKeepsRefs(s1, s2);
        BoundMessageKeeps(s2, p, l);
        var s3 := if l.bindingRequired then s2.(log := s2.log + [BoundMessage(p, l.procId, l.mask)]) else s2;
        ApplyBindKeeps(s3, l.procId, p, q.bind);
      }
    }
  }

  lemma TakenKeepsRefs(s: State, l: Listener, q: Query)
    requires Inv(s) && Calling(s)
    requires Known(s.procs, s.todo, l.procId, 1)
    ensures var r := TakeToken(s, s.current, l.procId, q.replyBytes);
            r.Ok? ==>
              var s1 := r.value.0;
              && ListenersAlive(s1) && Interruptible(s1) && s1.log == s.log
              && Known(s1.procs, s1.todo, l.procId, 1) && Known(s1.procs, s1.todo, s.current, 1)
  {
  }

  lemma BoundMessageKeeps(s: State, p: int, l: Listener)
    requires Inv(s)
    requires l.bindingRequired ==> Covered(s.log, BoundMessage(p, l.procId, l.mask))
    ensures Inv(if l.bindingRequired then s.(log := s.log + [BoundMessage(p, l.procId, l.mask)]) else s)
  {
    if l.bindingRequired {
      LogKeeps(s, BoundMessage(p, l.procId, l.mask));
    }
  }

  lemma SendKeeps(s: State, q: Query)
    requires Inv(s) && Calling(s)
    ensures match Send(s, s.current, q) case Ok((s', _)) => Inv(s') case Halt(why) => Excused(why)
  {
    hide TablesOk, HistoryOk, StartupOk, SchedOk, ModeOk, SendTo;
    if q.path != [] && (IpcPath.GlobalPath(q.path) || IpcPath.DirectPath(q.path)) {
      FoundListenerIsKnown(s, q.path, IpcPath.GlobalPath(q.path), q.target, 0);
      var i := FindListener(s.listeners, q.path, IpcPath.GlobalPath(q.path), q.target, 0);
      if i < |s.listeners| {
        var l := s.listeners[i];
        if !l.bindingRequired || Permitted(s.bindings, s.current, l) {
          if l.bindingRequired {
            PermittedIsCovered(s, l);
          }
          SendToKeeps(s, l, q);
        }
      }
    }
  }

  // ---------------------------------------------------------------- replying and registering

  lemma SendReplyKeeps(s: State, r: ReplyInfo)
    requires Inv(s) && Calling(s)
    ensures match SendReply(s, s.current, r)
            case Ok((s', _)) => Inv(s')
            case Halt(why) => why == QueueFull || why == NotificationRefused
  {
    hide TablesOk, HistoryOk, StartupOk, SchedOk, ModeOk, ApplyBind, ReleaseToken;
    LiveListeners(s);
    if r.bytes != 0 && r.token < |s.replies| && s.replies[r.token].handler == s.current && s.replies[r.token].bytes == r.bytes {
      var reply := s.replies[r.token];
      SenderOfToken(s, r.token);
      ApplyBindKeeps(s, reply.sender, s.current, r.bind);
      var a := ApplyBind(s, reply.sender, s.current, r.bind);
      if a.Ok? && a.value.1 == NoError {
        var s1 := a.value.0;
        CallerKeepsRunning(s, s1);
        ReleaseTokenKeeps(s1, r.token);
      }
    }
  }

  lemma SenderOfToken(s: State, token: nat)
    requires Inv(s) && token < |s.replies| && s.replies[token].handler != NONE_PROC_ID
    ensures s.replies[token].sender > KERNEL_PROC_ID
    ensures Known(s.procs, s.todo, s.replies[token].sender, 1)
    ensures Known(s.procs, s.todo, s.replies[token].handler, 1)
  {
  }

  lemma CallerKeepsRunning(s: State, s': State)
    requires Calling(s) && QuietButBindings(s, s')
    ensures s'.current == s.current && IsUser(s'.procs, s'.current) && s'.procs[s'.current].state.Running?
    ensures s'.kernel == s.kernel && s'.isr == s.isr && s'.queueRunning == s.queueRunning && s'.replies == s.replies
  {
  }

  lemma FreeListenerIsFree(listeners: seq<Listener>, i: nat)
    requires i <= |listeners|
    ensures var j := FreeListener(listeners, i);
            && i <= j <= |listeners|
            && (j < |listeners| ==> listeners[j].procId == NONE_PROC_ID)
            && forall k :: i <= k < j ==> listeners[k].procId != NONE_PROC_ID
    decreases |listeners| - i
  {
  }

  lemma RegisterKeeps(s: State, r: Registration)
    requires Inv(s) && Calling(s)
    ensures match Register(s, s.current, r)
            case Ok((s', _)) => Inv(s')
            case Halt(why) => why == ListenerTableFull && forall i :: 0 <= i < |s.listeners| ==> s.listeners[i].procId != NONE_PROC_ID
  {
    hide TablesOk, HistoryOk, StartupOk, SchedOk, ModeOk;
    FreeListenerIsFree(s.listeners, 0);
    var i := FreeListener(s.listeners, 0);
    if i < |s.listeners| {
      ListenerChangeKeeps(s, i, Listener(s.current, r.path, r.bindingRequired, r.mask));
    }
  }

  lemma ListenerChangeKeeps(s: State, i: nat, l: Listener)
    requires Inv(s) && i < |s.listeners| && Known(s.procs, s.todo, l.procId, 1)
    ensures Inv(s.(listeners := s.listeners[i := l]))
  {
  }

  // ---------------------------------------------------------------- devices and memory

  lemma DeviceChangeKeeps(s: State, d: nat, device: Device)
    requires Inv(s) && d < |s.devices|
    requires RefOk(s.procs, s.todo, device.holder, 0)
    requires device.listening ==> device.holder != NONE_PROC_ID && s.queueRunning
    ensures Inv(s.(devices := s.devices[d := device]))
  {
  }

  lemma DeviceCallsKeep(s: State, d: nat, listener: bool, decoder: bool)
    requires Inv(s) && Calling(s)
    ensures match Acquire(s, s.current, d) case Ok((s', _)) => Inv(s') case Halt(why) => why == DeviceInvalid
    ensures match Release(s, s.current, d) case Ok(s') => Inv(s') case Halt(why) => why == DeviceInvalid
    ensures match Listen(s, s.current, d, listener, decoder) case Ok((s', _)) => Inv(s') case Halt(_) => false
  {
    hide TablesOk, HistoryOk, StartupOk, SchedOk, ModeOk;
    if d < |s.devices| {
      HolderIsKnown(s, d);
      if s.devices[d].holder == NONE_PROC_ID { DeviceChangeKeeps(s, d, s.devices[d].(holder := s.current)); }
      DeviceChangeKeeps(s, d, Released(s.devices[d]));
      if s.devices[d].holder == s.current { DeviceChangeKeeps(s, d, s.devices[d].(listening := true)); }
    }
  }

  lemma HolderIsKnown(s: State, d: nat)
    requires Inv(s) && d < |s.devices|
    ensures RefOk(s.procs, s.todo, s.devices[d].holder, 0)
    ensures s.devices[d].listening ==> s.devices[d].holder != NONE_PROC_ID
    ensures s.kernel.Ready? ==> s.queueRunning && Known(s.procs, s.todo, s.current, 3)
    ensures Calling(s) ==> Known(s.procs, s.todo, s.current, 0)
    ensures s.devices[d].listening ==> s.queueRunning
  {
  }

  lemma EmitKeeps(s: State, d: nat, bytes: nat)
    requires Inv(s) && s.isr == 1
    requires d < |s.devices|
    ensures match Emit(s, d, bytes)
            case Ok((s', e)) => Inv(s') && (e == DevNone ==> EVENT_HEADER_BYTES + bytes <= DISPATCH_MAX_DATA_SIZE_BYTES)
            case Halt(why) =>
              && (why == QueueFull || (why == PayloadTooLarge && EVENT_HEADER_BYTES + bytes > DISPATCH_MAX_DATA_SIZE_BYTES))
              && s.devices[d].started && s.devices[d].listening
              && IsUser(s.procs, s.devices[d].holder) && s.procs[s.devices[d].holder].Alive()
              && s.devices[d].holder < |s.loops| && !IsFull(s.loops[s.devices[d].holder])
  {
    hide TablesOk, HistoryOk, StartupOk, SchedOk, ModeOk, CallbackInvoke, Quiet;
    HolderIsKnown(s, d);
    LoopsAreOk(s);
    if s.devices[d].started && s.devices[d].listening {
      CallbackKeeps(s, s.devices[d].holder, Message(KERNEL_PROC_ID, |s.replies|), EVENT_HEADER_BYTES + bytes);
    }
  }

  lemma FetchKeeps(s: State)
    requires Inv(s) && Calling(s)
    ensures |s.loops| == |s.procs|
    ensures Inv(WithLoop(s, s.current, FetchItem(s.loops[s.current]).1))
    ensures Inv(WithLoop(s, s.current, FetchData(s.loops[s.current]).1))
  {
    hide TablesOk, HistoryOk, StartupOk, SchedOk, ModeOk;
    LoopsAreOk(s);
    var f := s.loops[s.current];
    FetchedIsOk(f);
    CallerHasNoLocks(s);
    LoopChangeKeeps(s, s.current, FetchItem(f).1, WithLoop(s, s.current, FetchItem(f).1).mail);
    LoopChangeKeeps(s, s.current, FetchData(f).1, WithLoop(s, s.current, FetchData(f).1).mail);
  }

  lemma FetchedIsOk(f: Fifo<Message>)
    requires LoopOk(f)
    ensures LoopOk(FetchItem(f).1) && LoopOk(FetchData(f).1)
  {
  }

  lemma CallerHasNoLocks(s: State)
    requires Inv(s) && Calling(s)
    ensures !s.procs[s.current].event && !s.procs[s.current].ipc
  {
  }

  lemma MappingKeeps(s: State, pages: set<int>)
    requires Inv(s) && Calling(s)
    ensures |s.mapped| == |s.procs|
    ensures Inv(s.(mapped := s.mapped[s.current := pages]))
  {
  }

  // ---------------------------------------------------------------- ending

  /** The four cleanup tasks and an evaluation, in this order, on an empty queue. */
  lemma ByeKeeps(s: State)
    requires Inv(s) && Calling(s) && s.todo == []
    ensures match Bye(s, s.current) case Ok(s') => Inv(s') case Halt(why) => why == QueueFull
  {
    hide TablesOk, HistoryOk;
    var p := s.current;
    CallerOwnsNothing(s);
    var r := Bye(s, p);
    if r.Ok? {
      var plan := [DevCleanup(p), IpcCleanup(p), RunLoopCleanup(p), ProcCleanup(p), Evaluate];
      assert r.value == s.(procs := s.procs[p := s.procs[p].(state := Finished)], todo := r.value.todo, elapsed := GRANULARITY_MS);
      assert r.value.todo == plan;
      EndKeepsTables(s, p, r.value);
      EndKeepsHistory(s, r.value);
    }
  }

  lemma CallerOwnsNothing(s: State)
    requires Inv(s) && Calling(s)
    ensures !OwnsToken(s.replies, s.current) && !s.procs[s.current].Locked()
  {
  }

  lemma EndKeepsHistory(s: State, s': State)
    requires HistoryOk(s)
    requires s' == s.(procs := s'.procs, todo := s'.todo, elapsed := s'.elapsed)
    ensures HistoryOk(s')
  {
  }

  lemma EndKeepsTables(s: State, p: int, s': State)
    requires TablesOk(s) && s.todo == []
    requires IsUser(s.procs, p) && s.procs[p].Alive() && !s.procs[p].Locked() && !OwnsToken(s.replies, p)
    requires s' == s.(procs := s.procs[p := s.procs[p].(state := Finished)], todo := s'.todo, elapsed := s'.elapsed)
    requires s'.todo == [DevCleanup(p), IpcCleanup(p), RunLoopCleanup(p), ProcCleanup(p), Evaluate]
    ensures TablesOk(s')
  {
  }
}
