/** What the other steps do, for all states that runs from boot reach. */
module KernelPromises {
  import opened Outcomes
  import opened RunLoopSpec
  import opened IpcPath
  import opened KernelState
  import opened KernelInvariant
  import opened KernelSteps
  import opened KernelCalls
  import opened KernelTasks
  import opened KernelTables
  import KernelEffects
  import opened KernelServices
  import opened KernelReplies
  import opened KernelTheorems

  // ---------------------------------------------------------------- device events

  /** Somebody alive listens to the device and has room. */
  predicate Heeded(s: State, d: nat) {
    && d < |s.devices| && s.devices[d].started && s.devices[d].listening
    && IsUser(s.procs, s.devices[d].holder) && s.procs[s.devices[d].holder].Alive()
    && HasRoom(s, s.devices[d].holder)
  }

  function DeviceEvent(s: State, bytes: nat): Fifo<Message> {
    Entries(Message(KERNEL_PROC_ID, |s.replies|), EVENT_HEADER_BYTES + bytes)
  }

  lemma EmittedArrives(s: State, d: nat, bytes: nat)
    requires Inv(s) && d < |s.devices|
    ensures match Emit(s, d, bytes)
            case Ok((s', e)) =>
              && (e == DevNone <==> Heeded(s, d))
              && (e == DevStateInvalid <==> !s.devices[d].started)
              && (e == DevNotFound <==> s.devices[d].started && !s.devices[d].listening)
              && (Heeded(s, d) ==>
                    && s' == s.(procs := s'.procs, todo := s'.todo, elapsed := s'.elapsed, loops := s'.loops, mail := s'.mail)
                    && Arrives(s, s', s.devices[d].holder, DeviceEvent(s, bytes)))
              && (!Heeded(s, d) ==> s' == s)
            case Halt(_) => true
  {
    hide TablesOk, HistoryOk, StartupOk, SchedOk, ModeOk, Arrives, CallbackInvoke;
    LoopsAreOk(s);
    HolderIsKnown(s, d);
    var h := s.devices[d].holder;
    var m := Message(KERNEL_PROC_ID, |s.replies|);
    CallbackArrives(s, h, m, EVENT_HEADER_BYTES + bytes);
    DeadOrRoom(s, h, m, EVENT_HEADER_BYTES + bytes);
  }

  lemma DeadOrRoom(s: State, p: int, m: Message, bytes: nat)
    requires |s.loops| == |s.procs|
    ensures match CallbackInvoke(s, p, m, bytes)
            case Ok((_, e)) => e == PeNone <==> IsUser(s.procs, p) && s.procs[p].Alive() && HasRoom(s, p)
            case Halt(_) => true
  {
  }

  /** An event of a device arrives exactly if somebody heeds it, and otherwise changes nothing. */
  lemma EventGetsThrough(b: Sizes, run: seq<Action>, s: State, d: nat, bytes: nat, s': State)
    requires Reaches(b, run, s) && Enabled(s, DeviceIrq(d, bytes)) && Step(s, DeviceIrq(d, bytes)) == Ok(s')
    ensures Heeded(s, d) ==>
      && s' == s.(isr := 1, procs := s'.procs, todo := s'.todo, elapsed := s'.elapsed, loops := s'.loops, mail := s'.mail)
      && Arrives(s, s', s.devices[d].holder, DeviceEvent(s, bytes))
    ensures !Heeded(s, d) ==> s' == Entered(s)
  {
    hide Inv, Emit;
    ReachedIsSafe(b, run, s);
    KernelRuns.IsrBegins(s);
    EmittedArrives(Entered(s), d, bytes);
  }

  // ---------------------------------------------------------------- waiting for events

  lemma LockingBlocks(s: State, p: int)
    requires IsUser(s.procs, p)
    ensures match LockProc(s, p, EventLock)
            case Ok(s') =>
              && s' == s.(procs := s.procs[p := Proc(Blocked, true, s.procs[p].ipc)], todo := s'.todo, elapsed := s'.elapsed)
              && if s.procs[p].state.Blocked? then s'.todo == s.todo && s'.elapsed == s.elapsed
                 else s'.todo == s.todo + [Evaluate] && s'.elapsed == GRANULARITY_MS
            case Halt(_) => true
  {
  }

  /** A process that asked to wait is blocked exactly if nothing is there for it when the queue gets to its request. */
  lemma WaitingBlocksIffIdle(b: Sizes, run: seq<Action>, s: State, image: Image, p: int, s': State)
    requires Reaches(b, run, s) && Enabled(s, RunHead(image)) && s.todo[0] == WaitForEvent(p) && Step(s, RunHead(image)) == Ok(s')
    ensures IsUser(s.procs, p) && p < |s.loops| && IsUser(s'.procs, p)
    ensures s'.procs[p].state.Blocked? && s'.procs[p].event <==> s.loops[p] == []
    ensures s' == s.(procs := s'.procs, todo := s'.todo, elapsed := s'.elapsed, head := Some(WaitForEvent(p)))
    ensures s.loops[p] == [] ==>
      && s'.procs == s.procs[p := Proc(Blocked, true, s.procs[p].ipc)]
      && s'.todo == s.todo[1..] + if s.procs[p].state.Blocked? then [] else [Evaluate]
    ensures s.loops[p] != [] ==> s'.procs == s.procs && s'.todo == s.todo[1..]
  {
    hide TablesOk, HistoryOk, StartupOk, SchedOk, ModeOk, LockProc;
    ReachedIsSafe(b, run, s);
    QueuedIsAlive(s);
    LoopsAreOk(s);
    EmptyIfWaiting(s, p);
    LockingBlocks(s, p);
    RestAfterHead(s.todo);
  }

  lemma EmptyIfWaiting(s: State, p: int)
    requires Inv(s) && IsUser(s.procs, p)
    ensures |s.loops| == |s.procs|
    ensures IsEmpty(s.loops[p]) <==> s.loops[p] == []
    ensures s.procs[p].event ==> s.loops[p] == []
  {
    hide HistoryOk;
  }

  lemma RestAfterHead(todo: seq<Task>)
    requires todo != []
    ensures (todo + [Evaluate])[1..] == todo[1..] + [Evaluate] && todo[1..] + [] == todo[1..]
  {
  }

  // ---------------------------------------------------------------- registering

  /** A request that is complete, and asks for a binding where the kind of its path demands it. */
  predicate IsComplete(r: Registration) {
    && 0 < |r.path| <= MAX_LENGTH && r.handler && r.decoder
    && (r.bindingRequired || r.mask == 0)
    && (GlobalPath(r.path) || (DirectPath(r.path) && r.bindingRequired) || (NotificationPath(r.path) && !r.bindingRequired))
  }

  /** The process hears of destroyed bindings, if it asks for any. */
  ghost predicate MayBind(s: State, p: int, r: Registration) {
    r.bindingRequired ==> exists i :: 0 <= i < |s.listeners| && s.listeners[i].procId == p && s.listeners[i].path == SESSION_DESTROYED
  }

  ghost predicate IsTaken(s: State, r: Registration) {
    GlobalPath(r.path) && exists i :: 0 <= i < |s.listeners| && Matches(r.path, s.listeners[i].path)
  }

  /** What a process may listen on. */
  ghost predicate Registrable(s: State, p: int, r: Registration) {
    IsComplete(r) && MayBind(s, p, r) && !IsTaken(s, r)
  }

  /** One free entry becomes the listener. */
  ghost predicate Listed(listeners: seq<Listener>, listeners': seq<Listener>, l: Listener) {
    exists i :: 0 <= i < |listeners| && listeners[i].procId == NONE_PROC_ID && listeners' == listeners[i := l]
  }

  lemma RegisterIsListed(s: State, p: int, r: Registration)
    requires IsUser(s.procs, p)
    ensures match Register(s, p, r)
            case Ok((s', e)) =>
              && (e == NoError <==> Registrable(s, p, r))
              && (e == PreconditionNotSatisfied <==> IsComplete(r) && !MayBind(s, p, r))
              && (e == AlreadyExists <==> IsComplete(r) && MayBind(s, p, r) && IsTaken(s, r))
              && (e == InvalidPath || e == InvalidParameter <==> !IsComplete(r))
              && (Registrable(s, p, r) ==>
                    && s' == s.(listeners := s'.listeners)
                    && Listed(s.listeners, s'.listeners, Listener(p, r.path, r.bindingRequired, r.mask)))
              && (!Registrable(s, p, r) ==> s' == s)
            case Halt(_) => Registrable(s, p, r)
  {
    hide GlobalPath, DirectPath, NotificationPath, Matches;
    KindsAreExclusive(r.path);
    NextListenerIsFirst(s.listeners, r.path, 0);
    FreeListenerIsFree(s.listeners, 0);
  }

  /** A process is entered as a listener exactly if it may be. */
  lemma RegistersIff(b: Sizes, run: seq<Action>, s: State, r: Registration, s': State)
    requires Reaches(b, run, s) && Enabled(s, Call(CallRegister(r))) && Step(s, Call(CallRegister(r))) == Ok(s')
    ensures Registrable(s, s.current, r) ==>
      && s' == s.(isr := 1, listeners := s'.listeners)
      && Listed(s.listeners, s'.listeners, Listener(s.current, r.path, r.bindingRequired, r.mask))
    ensures !Registrable(s, s.current, r) ==> s' == Entered(s)
  {
    hide Inv, Register, GlobalPath, DirectPath, NotificationPath, Matches, Listed;
    ReachedIsSafe(b, run, s);
    CallBegins(s);
    CallerIsUser(Entered(s));
    RegisterIsListed(Entered(s), s.current, r);
  }

  // ---------------------------------------------------------------- devices

  /** A device changes hands only so: from nobody to the caller, or to nobody by its holder or the cleanup of its holder. */
  ghost predicate DeviceStep(s: State, a: Action, d: nat, after: Device)
    requires d < |s.devices|
  {
    var before := s.devices[d];
    if a == Call(CallAcquire(d)) && before.holder == NONE_PROC_ID then after == before.(holder := s.current)
    else if a == Call(CallRelease(d)) && before.holder == s.current then after == Device(before.started, NONE_PROC_ID, false)
    else if a == Call(CallListen(d, true, true)) && before.holder == s.current && before.started then after == before.(listening := true)
    else if a.RunHead? && s.todo != [] && s.todo[0] == DevCleanup(before.holder) then after == Device(before.started, NONE_PROC_ID, false)
    else after == before
  }

  /** What the caller is told. */
  lemma HoldResults(s: State, d: nat, listener: bool, decoder: bool)
    requires Inv(s) && Calling(s) && d < |s.devices|
    ensures match Acquire(s, s.current, d)
            case Ok((_, e)) => e == if s.devices[d].holder == NONE_PROC_ID then DevNone else AlreadyHeld
            case Halt(_) => false
    ensures match Listen(s, s.current, d, listener, decoder)
            case Ok((_, e)) =>
              && (e == ListenerInvalid || e == DecoderInvalid <==> !listener || !decoder)
              && (e == HandleInvalid <==> listener && decoder && s.devices[d].holder != s.current)
              && (e == DevNone || e == AlreadySet <==> listener && decoder && s.devices[d].holder == s.current && s.devices[d].started)
              && (e == AlreadySet ==> s.devices[d].listening) && (e == DevNone ==> !s.devices[d].listening)
            case Halt(_) => false
  {
    hide Inv;
    DeviceCallsKeep(s, d, listener, decoder);
  }

  lemma CallChangesDevice(s: State, call: Syscall, d: nat)
    requires Inv(s) && Calling(s) && d < |s.devices| && s.current < |s.loops| && s.current < |s.mapped|
    ensures match Perform(s, s.current, call)
            case Ok(s') => |s'.devices| == |s.devices| && DeviceStep(s, Call(call), d, s'.devices[d])
            case Halt(_) => true
  {
    hide Inv, Send, SendReply, Register, Bye;
    if IsMessageCall(call) {
      MessageCallLeavesTables(s, s.current, call);
    } else if !KernelEffects.IsTableCall(call) {
      QueueingCallLeavesTables(s, s.current, call);
    } else {
      TableCallChangesDevice(s, call, d);
    }
  }

  lemma TableCallChangesDevice(s: State, call: Syscall, d: nat)
    requires Calling(s) && d < |s.devices| && s.current < |s.loops| && s.current < |s.mapped| && KernelEffects.IsTableCall(call)
    ensures match Perform(s, s.current, call)
            case Ok(s') => |s'.devices| == |s.devices| && DeviceStep(s, Call(call), d, s'.devices[d])
            case Halt(_) => true
  {
  }

  lemma TaskChangesDevice(s: State, image: Image, d: nat)
    requires Enabled(s, RunHead(image)) && d < |s.devices| && (s.devices[d].listening ==> s.devices[d].holder != NONE_PROC_ID)
    ensures match RunTask(s, s.todo[0], image)
            case Ok(s') => |s'.devices| == |s.devices| && DeviceStep(s, RunHead(image), d, s'.devices[d])
            case Halt(_) => true
  {
    hide RunTask, CleanIpc;
    match s.todo[0]
    case IpcCleanup(p) => CleaningRuns(s, p, image);
    case DevCleanup(p) => DevicesRun(s, p, image);
    case _ => TaskLeavesTables(s, s.todo[0], image);
  }

  lemma CleaningRuns(s: State, p: int, image: Image)
    ensures RunTask(s, IpcCleanup(p), image) == CleanIpc(s, p)
    ensures CleanIpc(s, p).Ok? ==> CleanIpc(s, p).value.devices == s.devices
  {
    hide CleanIpc;
    CleaningLeavesTables(s, p);
  }

  lemma DevicesRun(s: State, p: int, image: Image)
    ensures RunTask(s, DevCleanup(p), image) == Ok(CleanDevices(s, p))
  {
  }

  lemma DeviceChangesHands(b: Sizes, run: seq<Action>, s: State, a: Action, d: nat, s': State)
    requires Reaches(b, run, s) && Enabled(s, a) && Step(s, a) == Ok(s') && d < |s.devices|
    ensures |s'.devices| == |s.devices| && DeviceStep(s, a, d, s'.devices[d])
  {
    hide Inv, Perform, RunTask;
    ReachedIsSafe(b, run, s);
    HolderIsKnown(s, d);
    match a
    case Call(call) =>
      CallBegins(s);
      CallChangesDevice(Entered(s), call, d);
    case RunHead(image) => TaskChangesDevice(s, image, d);
    case _ => OtherStepLeavesTables(s, a);
  }
}
