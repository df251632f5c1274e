/** When a step halts the machine, exactly: only a full queue is left open here, and KernelRoom excludes it. */
module KernelHalts {
  import opened Outcomes
  import opened RunLoopSpec
  import opened IpcPath
  import opened KernelState
  import opened KernelInvariant
  import opened KernelSteps
  import opened KernelCalls
  import opened KernelTasks
  import opened KernelRuns
  import opened KernelServices
  import opened KernelReplies
  import opened KernelPromises
  import opened KernelNotices
  import opened KernelTheorems
  import KernelRoom

  // ---------------------------------------------------------------- the reasons

  predicate HasEmptySlot(s: State) {
    exists k :: 0 <= k < |s.procs| && s.procs[k].state.Empty?
  }

  /** An executable for which there is a slot, and that cannot be used. */
  function ImageExcuse(s: State, image: Image): Option<Oops> {
    if !HasEmptySlot(s) then None
    else match image
      case Faulty => Some(ImageRejected)
      case Loaded(_, entry, heap) =>
        if entry == 0 then Some(HatchWithoutEntry) else if heap == 0 then Some(HatchWithoutHeap) else None
      case _ => None
  }

  /** A message too large for its receiver, or one that takes the last place of a receiver that then has to be told something. */
  ghost function SendExcuse(s: State, l: Listener, q: Query): Option<Oops> {
    if !HasRoom(s, l.procId) then None
    else if QUERY_HEADER_BYTES + q.bytes > DISPATCH_MAX_DATA_SIZE_BYTES then Some(PayloadTooLarge)
    else if Told(s, l.procId, q.bind) && CanBind(s.bindings, l.procId, s.current, q.bind)
            && |s.loops[l.procId]| + 1 == DISPATCH_QUEUE_SIZE then Some(NotificationRefused)
    else None
  }

  ghost function CallExcuse(s: State, call: Syscall): Option<Oops> {
    match call
    case CallSend(q) =>
      if exists i :: Addressed(s, s.current, q, i) then
        var i :| Addressed(s, s.current, q, i);
        SendExcuse(s, s.listeners[i], q)
      else None
    case CallReply(r) =>
      if Accepted(s, s.current, r) && Told(s, s.replies[r.token].sender, r.bind) && !HasRoom(s, s.replies[r.token].sender)
      then Some(NotificationRefused) else None
    case CallRegister(r) =>
      if Registrable(s, s.current, r) && forall i :: 0 <= i < |s.listeners| ==> s.listeners[i].procId != NONE_PROC_ID
      then Some(ListenerTableFull) else None
    case CallAcquire(d) => if d >= |s.devices| then Some(DeviceInvalid) else None
    case CallRelease(d) => if d >= |s.devices| then Some(DeviceInvalid) else None
    case CallMemThx(page) =>
      if page != 0 && 0 <= s.current < |s.mapped| && page !in s.mapped[s.current] then Some(PageNotMapped) else None
    case _ => None
  }

  ghost function Excuse(s: State, a: Action): Option<Oops> {
    match a
    case Startup(image) => ImageExcuse(s, image)
    case Call(call) => CallExcuse(s, call)
    case DeviceIrq(d, bytes) =>
      if Heeded(s, d) && EVENT_HEADER_BYTES + bytes > DISPATCH_MAX_DATA_SIZE_BYTES then Some(PayloadTooLarge) else None
    case RunHead(image) =>
      if s.todo == [] then None
      else (match s.todo[0]
        case Start(_) => ImageExcuse(s, image)
        case IpcCleanup(p) => if CleanupNoticesFit(s, p) then None else Some(NotificationRefused)
        case _ => None)
    case _ => None
  }

  /** It halts for the excuse, or the queue was full first; and it goes on without one. */
  ghost predicate HaltsFor<T>(r: Outcome<T>, excuse: Option<Oops>) {
    match r
    case Ok(_) => excuse == None
    case Halt(why) => why == QueueFull || excuse == Some(why)
  }

  // ---------------------------------------------------------------- sends and replies

  lemma UnbindingIsPossible(s: State, peer: int, p: int, b: BindData)
    ensures b.flag.Unbind? ==> (CanBind(s.bindings, peer, p, b) <==> FindBinding(s.bindings, peer, p, 0) < |s.bindings|)
  {
    hide LowestLink;
    FindsLowest(s.bindings, peer, p);
    var i := FindBinding(s.bindings, peer, p, 0);
    assert b.flag.Unbind? && i < |s.bindings| ==> Concerns(s.bindings, peer, p, b, i);
  }

  lemma SendToHaltsFor(s: State, l: Listener, q: Query)
    requires Inv(s) && Calling(s) && Known(s.procs, s.todo, l.procId, 1)
    requires l.bindingRequired ==> Covered(s.log, BoundMessage(s.current, l.procId, l.mask))
    ensures HaltsFor(SendTo(s, s.current, l, q), SendExcuse(s, l, q))
  {
    hide Inv, Calling, SendTo, Listens, CanBind, FindBinding;
    SendToKeeps(s, l, q);
    SendToRefusedIff(s, l, q);
    UnbindingIsPossible(s, l.procId, s.current, q.bind);
  }

  /** The listener that a send gets through to is the one that is addressed. */
  lemma ReceiverIsAddressed(s: State, q: Query)
    ensures match Receiver(s, s.current, q)
            case None => forall i :: !Addressed(s, s.current, q, i)
            case Some(l) => exists i :: Addressed(s, s.current, q, i) && s.listeners[i] == l
    ensures forall i, k :: Addressed(s, s.current, q, i) && Addressed(s, s.current, q, k) ==> i == k
  {
    hide GlobalPath, DirectPath, Fits, MayWrite, Permitted;
    if 0 < |q.path| <= MAX_LENGTH && (GlobalPath(q.path) || DirectPath(q.path)) {
      LookupIsFor(s, q);
      var i := FindListener(s.listeners, q.path, GlobalPath(q.path), q.target, 0);
      if i < |s.listeners| {
        PermissionIsMayWrite(s, s.current, s.listeners[i], q);
        KindsAreExclusive(q.path);
        assert Addressed(s, s.current, q, i) <==> MayWrite(s, s.current, s.listeners[i], q);
      }
    }
  }

  lemma SendHaltsFor(s: State, q: Query)
    requires Inv(s) && Calling(s)
    ensures HaltsFor(Send(s, s.current, q), CallExcuse(s, CallSend(q)))
  {
    hide Inv, Calling, Send, SendTo, Receiver, Addressed, SendExcuse;
    SendIsSendTo(s, s.current, q);
    ReceiverIsKnown(s, q);
    ReceiverIsAddressed(s, q);
    var r := Receiver(s, s.current, q);
    if r.Some? {
      SendToHaltsFor(s, r.value, q);
    }
  }

  lemma ReplyHaltsFor(s: State, r: ReplyInfo)
    requires Inv(s) && Calling(s)
    ensures HaltsFor(SendReply(s, s.current, r), CallExcuse(s, CallReply(r)))
  {
    hide Inv, Calling, SendReply, Listens, CanBind, FindBinding;
    SendReplyKeeps(s, r);
    ReplyRefusedIff(s, r);
    CallerIsUser(s);
    if r.token < |s.replies| {
      UnbindingIsPossible(s, s.replies[r.token].sender, s.current, r.bind);
      if s.replies[r.token].handler == s.current {
        OwnerHasLoop(s, r.token);
      }
    }
  }

  lemma OwnerHasLoop(s: State, i: nat)
    requires Inv(s) && i < |s.replies| && s.replies[i].handler != NONE_PROC_ID
    ensures 0 <= s.replies[i].sender < |s.loops|
  {
    hide HistoryOk;
  }

  // ---------------------------------------------------------------- the other calls

  lemma OtherCallHaltsFor(s: State, call: Syscall)
    requires Inv(s) && Calling(s) && s.todo == [] && s.current < |s.loops| && s.current < |s.mapped|
    requires !call.CallSend? && !call.CallReply? && !call.CallRegister?
    ensures HaltsFor(Perform(s, s.current, call), CallExcuse(s, call))
  {
    hide TablesOk, HistoryOk, StartupOk, SchedOk, ModeOk, Bye, FetchItem, FetchData;
    if call.CallBye? || call.CallFug? {
      ByeKeeps(s);
    } else {
      InterruptedCaller(s);
    }
  }

  lemma InterruptedCaller(s: State)
    requires Inv(s) && Calling(s)
    ensures s.queueRunning
  {
    hide TablesOk, HistoryOk;
  }

  lemma RegisterHaltsFor(s: State, r: Registration)
    requires Inv(s) && Calling(s)
    ensures HaltsFor(Register(s, s.current, r), CallExcuse(s, CallRegister(r)))
  {
    hide Inv, Register, Registrable;
    CallerIsUser(s);
    RegisterIsListed(s, s.current, r);
    RegisterKeeps(s, r);
  }

  lemma CallHaltsFor(s: State, call: Syscall)
    requires Inv(s) && Calling(s) && s.todo == [] && s.current < |s.loops| && s.current < |s.mapped|
    ensures HaltsFor(Perform(s, s.current, call), CallExcuse(s, call))
  {
    hide Inv, Calling, CallExcuse, Send, SendReply, Register;
    match call
    case CallSend(q) => SendHaltsFor(s, q);
    case CallReply(r) => ReplyHaltsFor(s, r);
    case CallRegister(r) => RegisterHaltsFor(s, r);
    case _ => OtherCallHaltsFor(s, call);
  }

  /** The reasons do not depend on the interrupt having begun. */
  lemma SameCallExcuse(s: State, call: Syscall)
    ensures CallExcuse(Entered(s), call) == CallExcuse(s, call)
  {
    hide Fits, LowestLink, GlobalPath, DirectPath, NotificationPath, Includes, Listens, Concerns, Matches;
    if call.CallSend? {
      ReceiverIsAddressed(s, call.query);
      AddressedAlike(s, call.query);
    }
  }

  // ---------------------------------------------------------------- interrupts, tasks and programs

  lemma ImageHaltsFor(s: State, image: Image)
    requires Inv(s)
    ensures HaltsFor(StartImage(s, image), ImageExcuse(s, image))
  {
    hide Inv, ProcSelect, FreeSlot;
    FreeSlotIsLowest(s.procs, 0);
  }

  lemma EventHaltsFor(s: State, d: nat, bytes: nat)
    requires Inv(s) && s.isr == 1 && d < |s.devices|
    ensures HaltsFor(Emit(s, d, bytes), Excuse(s, DeviceIrq(d, bytes)))
  {
    hide Inv, Emit;
    EmitKeeps(s, d, bytes);
    EmittedArrives(s, d, bytes);
  }

  lemma TaskHaltsFor(s: State, image: Image)
    requires Inv(s) && Enabled(s, RunHead(image))
    ensures HaltsFor(RunTask(s, s.todo[0], image), Excuse(s, RunHead(image)))
  {
    hide Inv, Done, UnlockProcIfAble, WaitForEventIfIdle, StartImage, ImageExcuse, CleanIpc, CleanRunLoop, CleanupProc, CleanupNoticesFit;
    match s.todo[0]
    case Evaluate =>
    case UnlockIfAble(p) => UnlockIfAbleKeeps(s, p);
    case WaitForEvent(p) => WaitForEventKeeps(s, p);
    case Start(p) => ImageHaltsFor(s, image);
    case DevCleanup(p) =>
    case IpcCleanup(p) => CleanIpcKeeps(s, p);
    case RunLoopCleanup(p) => CleanRunLoopKeeps(s, p);
    case ProcCleanup(p) => CleanupProcKeeps(s, p);
  }

  lemma StepHaltsFor(s: State, a: Action)
    requires Inv(s) && Enabled(s, a)
    ensures HaltsFor(Step(s, a), Excuse(s, a))
  {
    hide Inv, CallExcuse, ImageExcuse, Heeded, Perform, RunTask, StartImage, Emit, OnTick, OnKernelHandlingFinished;
    match a
    case Startup(image) => ImageHaltsFor(s, image);
    case Call(call) =>
      CallBegins(s);
      CallHaltsFor(Entered(s), call);
      SameCallExcuse(s, call);
    case Tick =>
      IsrBegins(s);
      TickKeeps(s.(isr := 1));
    case DeviceIrq(d, bytes) =>
      IsrBegins(s);
      EventHaltsFor(Entered(s), d, bytes);
      SameHeed(s, d);
    case IsrEnd => IsrEndKeeps(s);
    case RunHead(image) => TaskHaltsFor(s, image);
    case Idle => IdleKeeps(s);
    case _ =>
  }

  lemma SameHeed(s: State, d: nat)
    ensures Heeded(Entered(s), d) <==> Heeded(s, d)
  {
  }

  /**
    * With tables of the sizes for which the queue cannot fill, a step halts the machine exactly if it has one of these reasons,
    * and for that reason.
    */
  lemma HaltsExactlyFor(b: Sizes, run: seq<Action>, s: State, a: Action, why: Oops)
    requires Reaches(b, run, s) && KernelRoom.MostTasks(b.procs) <= MAX_QUEUE_LENGTH && Enabled(s, a)
    ensures Step(s, a) == Halt(why) <==> Excuse(s, a) == Some(why)
  {
    hide Inv, Enabled, Step, Execute, Excuse, KernelRoom.InBounds;
    ReachedIsSafe(b, run, s);
    BootIsSafe(b.procs, b.listeners, b.tokens, b.bindings, b.started);
    KernelRoom.BootFits(b);
    KernelRoom.RunFits(Boot(b.procs, b.listeners, b.tokens, b.bindings, b.started), run);
    KernelRoom.StepFits(s, a);
    StepHaltsFor(s, a);
  }
}
