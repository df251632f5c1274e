/** Which tables a step of the machine leaves alone. */
module KernelTables {
  import opened Outcomes
  import opened KernelState
  import opened KernelEffects
  import KernelRoom

  /** Listeners, reply tokens, bindings, devices and memory are as before. */
  predicate LeavesTables(s: State, s': State) {
    && s'.listeners == s.listeners && s'.replies == s.replies && s'.bindings == s.bindings
    && s'.devices == s.devices && s'.mapped == s.mapped
  }

  predicate LeavesAllBut(s: State, s': State, devices: bool, mapped: bool) {
    && s'.listeners == s.listeners && s'.replies == s.replies && s'.bindings == s.bindings
    && (devices || s'.devices == s.devices) && (mapped || s'.mapped == s.mapped)
  }

  lemma QueueingLeavesTables(s: State, t: Task)
    ensures Dispatch(s, t).Ok? ==> LeavesTables(s, Dispatch(s, t).value)
    ensures StateDidChange(s).Ok? ==> LeavesTables(s, StateDidChange(s).value)
    ensures OnTick(s).Ok? ==> LeavesTables(s, OnTick(s).value)
  {
  }

  lemma LocksLeaveTables(s: State, p: int, l: Lock)
    ensures LockProc(s, p, l).Ok? ==> LeavesTables(s, LockProc(s, p, l).value)
    ensures UnlockProc(s, p, l).Ok? ==> LeavesTables(s, UnlockProc(s, p, l).value)
  {
  }

  lemma EventsLeaveTables(s: State, p: int, m: Message, bytes: nat)
    ensures CallbackInvoke(s, p, m, bytes).Ok? ==> LeavesTables(s, CallbackInvoke(s, p, m, bytes).value.0)
  {
    hide UnlockProc, StateDidChange;
    if IsUser(s.procs, p) && p < |s.loops| && s.procs[p].Alive() && !RunLoopSpec.IsFull(s.loops[p]) {
      var f := RunLoopSpec.Fill(RunLoopSpec.Reserve(s.loops[p]), |s.loops[p]|, m, bytes);
      var s1 := s.(loops := s.loops[p := f], mail := s.mail + [Delivered(m, p)]);
      LocksLeaveTables(s1, p, EventLock);
      if UnlockProc(s1, p, EventLock).Ok? {
        QueueingLeavesTables(UnlockProc(s1, p, EventLock).value, Evaluate);
      }
    }
  }

  lemma QueueingCallLeavesTables(s: State, p: int, call: Syscall)
    requires 0 <= p < |s.loops| && p < |s.mapped|
    requires !IsTableCall(call) && !call.CallSend? && !call.CallReply?
    ensures Perform(s, p, call).Ok? ==> LeavesTables(s, Perform(s, p, call).value)
  {
  }

  lemma StartingLeavesTables(s: State, image: Image)
    ensures StartImage(s, image).Ok? ==> LeavesAllBut(s, StartImage(s, image).value, false, true)
  {
    KernelRoom.StartTakesSlot(s, image);
  }

  lemma TaskLeavesTables(s: State, t: Task, image: Image)
    requires !t.IpcCleanup?
    ensures RunTask(s, t, image).Ok? ==> LeavesAllBut(s, RunTask(s, t, image).value, t.DevCleanup?, t.Start? || t.ProcCleanup?)
  {
    hide LockProc, UnlockProc, StartImage, ProcSelect;
    match t
    case UnlockIfAble(p) => LocksLeaveTables(s, p, IpcLock);
    case WaitForEvent(p) => LocksLeaveTables(s, p, EventLock);
    case Start(p) => StartingLeavesTables(s, image);
    case _ =>
  }

  /** Calls about messages. */
  predicate IsMessageCall(call: Syscall) {
    call.CallSend? || call.CallReply?
  }

  lemma OtherStepLeavesTables(s: State, a: Action)
    requires Enabled(s, a) && !a.Call? && !a.RunHead?
    ensures Step(s, a).Ok? ==> LeavesAllBut(s, Step(s, a).value, false, a.Startup?)
  {
    hide StartImage, CallbackInvoke, OnTick;
    match a
    case Startup(image) => StartingLeavesTables(s, image);
    case Tick => QueueingLeavesTables(s.(isr := 1), Evaluate);
    case DeviceIrq(d, bytes) =>
      EventsLeaveTables(s.(isr := 1), s.devices[d].holder, Message(KERNEL_PROC_ID, |s.replies|), EVENT_HEADER_BYTES + bytes);
    case _ =>
  }

  lemma MessageCallLeavesTables(s: State, p: int, call: Syscall)
    requires 0 <= p < |s.loops| && p < |s.mapped| && IsMessageCall(call)
    ensures match Perform(s, p, call)
            case Ok(s') => s'.listeners == s.listeners && s'.devices == s.devices && s'.mapped == s.mapped
            case Halt(_) => true
  {
    hide Perform, Regular, KeepsWaiting, KeepsTokens;
    PerformIsOrderly(s, p, call);
  }

  lemma CleaningLeavesTables(s: State, p: int)
    ensures match CleanIpc(s, p)
            case Ok(s') => s'.listeners == WithoutListenersOf(s.listeners, p) && s'.devices == s.devices && s'.mapped == s.mapped
            case Halt(_) => true
  {
    hide CleanIpc, Regular, KeepsWaiting, KeepsTokens;
    CleanIpcIsOrderly(s, p);
  }
}
