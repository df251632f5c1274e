/** When a notice about a destroyed binding is refused, which halts the machine. */
module KernelNotices {
  import opened Outcomes
  import opened RunLoopSpec
  import opened KernelState
  import opened KernelInvariant
  import opened KernelSteps
  import opened KernelCalls
  import opened KernelTasks
  import opened KernelRuns
  import opened KernelRoom
  import opened KernelTheorems
  import IpcPath

  // ---------------------------------------------------------------- sends and replies

  /** The listener that a send gets through to. */
  function Receiver(s: State, p: int, q: Query): Option<Listener> {
    if q.path == [] || |q.path| > IpcPath.MAX_LENGTH || (!IpcPath.GlobalPath(q.path) && !IpcPath.DirectPath(q.path)) then None
    else
      var i := FindListener(s.listeners, q.path, IpcPath.GlobalPath(q.path), q.target, 0);
      if i >= |s.listeners| then None
      else
        var l := s.listeners[i];
        if if l.bindingRequired then !Permitted(s.bindings, p, l) else IpcPath.DirectPath(q.path) then None else Some(l)
  }

  lemma SendIsSendTo(s: State, p: int, q: Query)
    ensures match Receiver(s, p, q)
            case None => Send(s, p, q).Ok?
            case Some(l) => Send(s, p, q) == SendTo(s, p, l, q)
  {
    hide SendTo;
  }

  /** The message takes the last place in the run loop of a process that then hears that its binding is gone. */
  ghost predicate MessageFillsLoop(s: State, l: Listener, q: Query) {
    && q.bind.flag.Unbind? && QUERY_HEADER_BYTES + q.bytes <= DISPATCH_MAX_DATA_SIZE_BYTES
    && FindBinding(s.bindings, l.procId, s.current, 0) < |s.bindings|
    && Listens(s.listeners, l.procId) && 0 <= l.procId < |s.loops| && |s.loops[l.procId]| + 1 == DISPATCH_QUEUE_SIZE
  }

  /** A halt for a refused notice, and its condition; only a full queue may come first. */
  ghost predicate RefusedIff<T>(r: Outcome<T>, condition: bool) {
    && (r == Halt(NotificationRefused) ==> condition)
    && (condition ==> r == Halt(NotificationRefused) || r == Halt(QueueFull))
  }

  lemma SendToRefusedIff(s: State, l: Listener, q: Query)
    requires Inv(s) && Calling(s) && Known(s.procs, s.todo, l.procId, 1)
    requires l.bindingRequired ==> Covered(s.log, BoundMessage(s.current, l.procId, l.mask))
    ensures RefusedIff(SendTo(s, s.current, l, q), MessageFillsLoop(s, l, q))
  {
    hide TablesOk, HistoryOk, StartupOk, SchedOk, ModeOk, TakeToken, Deliver, ApplyBind, Listens, Refuses, FindBinding;
    LiveListeners(s);
    LoopsAreOk(s);
    var p := s.current;
    var r1: Outcome<(State, nat)> := if q.replyBytes == 0 then Ok((s, |s.replies|)) else TakeToken(s, p, l.procId, q.replyBytes);
    if q.replyBytes != 0 {
      TakeTokenKeeps(s, l.procId, q.replyBytes);
    }
    if r1.Ok? {
      TakenKeepsRefs(s, l, q);
      ReceiverLives(s, l, q);
      var (s1, token) := r1.value;
      DeliverKeeps(s1, l, p, q.bytes, q.replyBytes, token);
      var r2 := Deliver(s1, l, p, q.bytes, q.replyBytes, token);
      if r2.Ok? && r2.value.1 == NoError {
        var s2 := r2.value.0;
        QuietKeepsRefs(s1, s2);
        BoundMessageKeeps(s2, p, l);
        var s3 := if l.bindingRequired then s2.(log := s2.log + [BoundMessage(p, l.procId, l.mask)]) else s2;
        ApplyBindKeeps(s3, l.procId, p, q.bind);
        LoopsAreOk(s2);
        PlaceIsTaken(s, s3, l, q);
      }
    }
  }

  lemma PlaceIsTaken(s: State, s3: State, l: Listener, q: Query)
    requires s3.bindings == s.bindings && s3.listeners == s.listeners && |s3.loops| == |s.loops| && 0 <= l.procId < |s.loops|
    requires |s3.loops[l.procId]| == |s.loops[l.procId]| + 1 <= DISPATCH_QUEUE_SIZE
    requires QUERY_HEADER_BYTES + q.bytes <= DISPATCH_MAX_DATA_SIZE_BYTES
    ensures MessageFillsLoop(s, l, q) <==>
            q.bind.flag.Unbind? && FindBinding(s3.bindings, l.procId, s.current, 0) < |s3.bindings| && Refuses(s3, l.procId)
  {
  }

  lemma ReceiverIsKnown(s: State, q: Query)
    requires Inv(s) && Calling(s)
    ensures match Receiver(s, s.current, q)
            case None => true
            case Some(l) =>
              Known(s.procs, s.todo, l.procId, 1) && (l.bindingRequired ==> Covered(s.log, BoundMessage(s.current, l.procId, l.mask)))
  {
    hide Inv;
    if q.path != [] {
      FoundListenerIsKnown(s, q.path, IpcPath.GlobalPath(q.path), q.target, 0);
      var r := Receiver(s, s.current, q);
      if r.Some? && r.value.bindingRequired {
        PermittedIsCovered(s, r.value);
      }
    }
  }

  ghost predicate SendFillsLoop(s: State, q: Query) {
    Receiver(s, s.current, q).Some? && MessageFillsLoop(s, Receiver(s, s.current, q).value, q)
  }

  lemma SendRefusedIff(s: State, q: Query)
    requires Inv(s) && Calling(s)
    ensures RefusedIff(Send(s, s.current, q), SendFillsLoop(s, q))
  {
    hide Inv, Calling, Send, SendTo, Receiver, MessageFillsLoop;
    SendIsSendTo(s, s.current, q);
    ReceiverIsKnown(s, q);
    var r := Receiver(s, s.current, q);
    if r.Some? {
      SendToRefusedIff(s, r.value, q);
    }
  }

  /** A reply that is accepted ends the binding of a sender that has no room for the notice. */
  ghost predicate ReplyIsRefused(s: State, r: ReplyInfo) {
    && r.bytes != 0 && r.token < |s.replies|
    && s.replies[r.token].handler == s.current && s.replies[r.token].bytes == r.bytes
    && r.bind.flag.Unbind? && FindBinding(s.bindings, s.replies[r.token].sender, s.current, 0) < |s.bindings|
    && Refuses(s, s.replies[r.token].sender)
  }

  lemma ReplyRefusedIff(s: State, r: ReplyInfo)
    requires Inv(s) && Calling(s)
    ensures RefusedIff(SendReply(s, s.current, r), ReplyIsRefused(s, r))
  {
    hide TablesOk, HistoryOk, StartupOk, SchedOk, ModeOk, ApplyBind, ReleaseToken, Refuses;
    LiveListeners(s);
    if r.bytes != 0 && r.token < |s.replies| && s.replies[r.token].handler == s.current && s.replies[r.token].bytes == r.bytes {
      var reply := s.replies[r.token];
      SenderOfToken(s, r.token);
      ApplyBindKeeps(s, reply.sender, s.current, r.bind);
      var a := ApplyBind(s, reply.sender, s.current, r.bind);
      if a.Ok? && a.value.1 == NoError {
        CallerKeepsRunning(s, a.value.0);
        ReleaseTokenKeeps(a.value.0, r.token);
      }
    }
  }

  // ---------------------------------------------------------------- steps

  /** The next step, if it is this one, halts for a refused notice. */
  ghost predicate RefusalAhead(s: State, a: Action) {
    match a
    case Call(CallSend(q)) => SendFillsLoop(s, q)
    case Call(CallReply(r)) => ReplyIsRefused(s, r)
    case RunHead(_) => s.todo != [] && s.todo[0].IpcCleanup? && !CleanupNoticesFit(s, s.todo[0].p)
    case _ => false
  }

  lemma OtherCallsNotRefused(s: State, call: Syscall)
    requires Inv(s) && Calling(s) && s.todo == [] && s.current < |s.loops| && s.current < |s.mapped|
    requires !call.CallSend? && !call.CallReply?
    ensures Perform(s, s.current, call) != Halt(NotificationRefused)
  {
    hide Inv, Calling, ListenersAlive, Register, Acquire, Release, Listen, Bye, Dispatch, FetchItem, FetchData;
    LiveListeners(s);
    CallerCanQueue(s);
    match call
    case CallStart => DispatchKeeps(s, Start(s.current));
    case CallBye => ByeKeeps(s);
    case CallFug => ByeKeeps(s);
    case CallWaitForEvent => DispatchKeeps(s, WaitForEvent(s.current));
    case CallYield => StateDidChangeKeeps(s);
    case CallRegister(r) => RegisterKeeps(s, r);
    case CallAcquire(d) => DeviceCallsKeep(s, d, false, false);
    case CallRelease(d) => DeviceCallsKeep(s, d, false, false);
    case CallListen(d, l, e) => DeviceCallsKeep(s, d, l, e);
    case _ =>
  }

  lemma CallRefusedIff(s: State, call: Syscall)
    requires Inv(s) && Enabled(s, Call(call))
    ensures RefusedIff(Step(s, Call(call)), RefusalAhead(s, Call(call)))
  {
    hide Calling, TablesOk, HistoryOk, SchedOk, StartupOk, Perform, SendFillsLoop, ReplyIsRefused;
    NobodyFinished(s);
    var s1 := s.(isr := 1);
    if call.CallSend? {
      SendRefusedIff(s1, call.query);
      SendIsCall(s, call.query);
    } else if call.CallReply? {
      ReplyRefusedIff(s1, call.info);
      ReplyIsCall(s, call.info);
    } else {
      OtherCallsNotRefused(s1, call);
    }
  }

  lemma SendIsCall(s: State, q: Query)
    requires Enabled(s, Call(CallSend(q)))
    ensures var s1 := s.(isr := 1);
            && (SendFillsLoop(s1, q) <==> SendFillsLoop(s, q))
            && match Send(s1, s.current, q)
               case Ok(_) => Step(s, Call(CallSend(q))).Ok?
               case Halt(why) => Step(s, Call(CallSend(q))) == Halt(why)
  {
    hide Send;
  }

  lemma ReplyIsCall(s: State, r: ReplyInfo)
    requires Enabled(s, Call(CallReply(r)))
    ensures var s1 := s.(isr := 1);
            && (ReplyIsRefused(s1, r) <==> ReplyIsRefused(s, r))
            && match SendReply(s1, s.current, r)
               case Ok(_) => Step(s, Call(CallReply(r))).Ok?
               case Halt(why) => Step(s, Call(CallReply(r))) == Halt(why)
  {
    hide SendReply;
  }

  lemma StartNotRefused(s: State, image: Image)
    ensures StartImage(s, image) != Halt(NotificationRefused)
  {
  }

  lemma TaskRefusedIff(s: State, image: Image)
    requires Inv(s) && Enabled(s, RunHead(image))
    ensures RefusedIff(Step(s, RunHead(image)), RefusalAhead(s, RunHead(image)))
  {
    hide Inv, Done, UnlockProcIfAble, WaitForEventIfIdle, StartImage, CleanIpc, CleanRunLoop, CleanupProc, CleanupNoticesFit;
    match s.todo[0]
    case Evaluate =>
    case UnlockIfAble(p) => UnlockIfAbleKeeps(s, p);
    case WaitForEvent(p) => WaitForEventKeeps(s, p);
    case Start(p) => StartNotRefused(s, image);
    case DevCleanup(p) =>
    case IpcCleanup(p) => CleanIpcKeeps(s, p);
    case RunLoopCleanup(p) => CleanRunLoopKeeps(s, p);
    case ProcCleanup(p) => CleanupProcKeeps(s, p);
  }

  /** Only these three kinds of step can halt for a refused notice, and they do exactly under these conditions. */
  lemma StepRefusedIff(s: State, a: Action)
    requires Inv(s) && Enabled(s, a)
    ensures RefusedIff(Step(s, a), RefusalAhead(s, a))
  {
    hide Inv, Enabled, Step;
    match a
    case Call(call) => CallRefusedIff(s, call);
    case RunHead(image) => TaskRefusedIff(s, image);
    case _ => OtherStepsNotRefused(s, a);
  }

  lemma OtherStepsNotRefused(s: State, a: Action)
    requires Inv(s) && Enabled(s, a) && !a.Call? && !a.RunHead?
    ensures Step(s, a) != Halt(NotificationRefused)
  {
    hide Inv, StartImage, Emit, OnTick, OnKernelHandlingFinished;
    match a
    case Startup(image) => StartNotRefused(s, image);
    case Tick =>
      IsrBegins(s);
      TickKeeps(s.(isr := 1));
    case DeviceIrq(d, bytes) =>
      IsrBegins(s);
      EmitKeeps(s.(isr := 1), d, bytes);
    case IsrEnd => IsrEndKeeps(s);
    case Idle => IdleKeeps(s);
    case _ =>
  }

  /** With tables of the sizes for which the queue cannot fill, the condition is exact in every run. */
  lemma NoticeRefusedIff(b: Sizes, run: seq<Action>, s: State, a: Action)
    requires Reaches(b, run, s) && MostTasks(b.procs) <= MAX_QUEUE_LENGTH && Enabled(s, a)
    ensures Step(s, a) == Halt(NotificationRefused) <==> RefusalAhead(s, a)
  {
    hide Inv, Enabled, Step, Execute, RefusalAhead, InBounds;
    ReachedIsSafe(b, run, s);
    BootIsSafe(b.procs, b.listeners, b.tokens, b.bindings, b.started);
    BootFits(b);
    RunFits(Boot(b.procs, b.listeners, b.tokens, b.bindings, b.started), run);
    StepFits(s, a);
    StepRefusedIff(s, a);
  }
}
