/** What holds in every run of the kernel, whatever system calls, interrupts and tasks it interleaves. */
module KernelRuns {
  import opened Outcomes
  import opened RunLoopSpec
  import opened KernelState
  import opened KernelInvariant
  import opened KernelSteps
  import opened KernelCalls
  import opened KernelTasks

  // ---------------------------------------------------------------- every step keeps the invariant

  lemma PerformKeeps(s: State, call: Syscall)
    requires Inv(s) && Calling(s) && s.todo == []
    requires s.current < |s.loops| && s.current < |s.mapped|
    ensures match Perform(s, s.current, call) case Ok(s') => Inv(s') case Halt(why) => Excused(why)
  {
    hide Inv, Calling, ListenersAlive, Send, SendReply, Register, Acquire, Release, Listen, Bye, Dispatch, FetchItem, FetchData;
    LiveListeners(s);
    CallerCanQueue(s);
    match call
    case CallStart => DispatchKeeps(s, Start(s.current));
    case CallBye => ByeKeeps(s);
    case CallFug => ByeKeeps(s);
    case CallWaitForEvent => DispatchKeeps(s, WaitForEvent(s.current));
    case CallYield => StateDidChangeKeeps(s);
    case CallSend(q) => SendKeeps(s, q);
    case CallReply(r) => SendReplyKeeps(s, r);
    case CallRegister(r) => RegisterKeeps(s, r);
    case CallAcquire(d) => DeviceCallsKeep(s, d, false, false);
    case CallRelease(d) => DeviceCallsKeep(s, d, false, false);
    case CallListen(d, l, e) => DeviceCallsKeep(s, d, l, e);
    case CallGetItem => FetchKeeps(s);
    case CallGetData => FetchKeeps(s);
    case CallMemPlz(pages) => MappingKeeps(s, s.mapped[s.current] + pages);
    case CallMemThx(page) => MappingKeeps(s, s.mapped[s.current] - {page});
  }

  lemma CallerCanQueue(s: State)
    requires Calling(s)
    ensures Queueable(s.procs, Start(s.current)) && Queueable(s.procs, WaitForEvent(s.current))
    ensures s.kernel.Ready? ==> s.isr == 1
  {
  }

  lemma IsrBegins(s: State)
    requires Inv(s) && s.isr == 0
    ensures Inv(s.(isr := 1))
  {
    hide TablesOk, HistoryOk;
    SameTables(s, s.(isr := 1));
    SameHistory(s, s.(isr := 1));
  }

  lemma TickKeeps(s: State)
    requires Inv(s) && s.isr == 1
    ensures match OnTick(s) case Ok(s') => Inv(s') case Halt(why) => why == QueueFull
  {
    hide TablesOk, HistoryOk;
    if s.elapsed < GRANULARITY_MS {
      var s1 := s.(elapsed := s.elapsed + 1);
      SameTables(s, s1);
      SameHistory(s, s1);
      assert Inv(s1);
      if s1.elapsed >= GRANULARITY_MS {
        DispatchKeeps(s1, Evaluate);
      }
    }
  }

  /** When the last interrupt handler ends with something queued, the kernel gets the processor. */
  lemma IsrEndKeeps(s: State)
    requires Inv(s) && s.isr > 0
    ensures match Step(s, IsrEnd) case Ok(s') => Inv(s') case Halt(_) => false
  {
    hide TablesOk, HistoryOk;
    var s1 := s.(isr := 0);
    SameTables(s, s1);
    SameHistory(s, s1);
    if QueueLength(s1) > 0 && s.kernel.Ready? {
      LeftKeepsTables(s1, s.current);
      SameHistory(s, SwitchToKernelIfNeeded(s1, s1.next).value);
    }
  }

  lemma LeftKeepsTables(s: State, p: int)
    requires TablesOk(s) && IsUser(s.procs, p)
    ensures var q := s.procs[p];
            TablesOk(SetProc(s, p, if q.state.Running? then q.(state := Ready) else q).(kernel := Running, current := KERNEL_PROC_ID))
  {
    hide OthersOk;
    var q := s.procs[p];
    if q.state.Running? {
      EventStays(s, p);
      OwnersAreBlocked(s, p);
      ProcChangeKeepsTables(s, p, q.(state := Ready));
      SameTables(SetProc(s, p, q.(state := Ready)), SetProc(s, p, q.(state := Ready)).(kernel := Running, current := KERNEL_PROC_ID));
    } else {
      assert s.procs[p := q] == s.procs;
      SameTables(s, SetProc(s, p, q).(kernel := Running, current := KERNEL_PROC_ID));
    }
  }

  lemma OwnersAreBlocked(s: State, p: int)
    requires TablesOk(s) && IsUser(s.procs, p) && !s.procs[p].state.Blocked?
    ensures !OwnsToken(s.replies, p) && !s.procs[p].Locked()
  {
    hide OthersOk;
  }

  /** The selected process is ready and unlocked: no guard of the switch can fire. */
  lemma IdleKeeps(s: State)
    requires Inv(s) && Enabled(s, Idle)
    ensures match OnKernelHandlingFinished(s) case Ok(s') => Inv(s') case Halt(_) => false
  {
    hide TablesOk, HistoryOk;
    if s.next >= 0 {
      var q := s.procs[s.next];
      UnlockedIfReady(s, s.next);
      RunningKeepsTables(s, s.next);
      var s' := OnKernelHandlingFinished(s).value;
      SameTables(SetProc(s, s.next, q.(state := Running)), s');
      SwitchKeepsHistory(s, s');
    }
  }

  lemma UnlockedIfReady(s: State, p: int)
    requires TablesOk(s) && IsUser(s.procs, p) && s.procs[p].state.Ready?
    ensures !s.procs[p].Locked()
  {
  }

  lemma RunningKeepsTables(s: State, p: int)
    requires TablesOk(s) && IsUser(s.procs, p) && s.procs[p].state.Ready?
    ensures TablesOk(SetProc(s, p, s.procs[p].(state := Running)))
  {
    hide OthersOk;
    EventStays(s, p);
    OwnersAreBlocked(s, p);
    ProcChangeKeepsTables(s, p, s.procs[p].(state := Running));
  }

  lemma SwitchKeepsHistory(s: State, s': State)
    requires HistoryOk(s)
    requires s'.log == s.log + [Switched(s.next)] && s'.bindings == s.bindings && s'.resuming && s'.next == s.next
    ensures HistoryOk(s')
  {
    MessagesStayGranted(s.log, Switched(s.next));
    LastSwitchedAfter(s.log, Switched(s.next));
    forall i | 0 <= i < |s.bindings| && s.bindings[i].sender != NONE_PROC_ID
      ensures GrantLive(s'.log, s.bindings[i].receiver, s.bindings[i].sender, s.bindings[i].permissions)
    {
      GrantStays(s.log, Switched(s.next), s.bindings[i].receiver, s.bindings[i].sender, s.bindings[i].permissions);
    }
  }

  lemma ReturnKeeps(s: State)
    requires Inv(s) && Enabled(s, Return)
    ensures Inv(Resume(s))
  {
    hide TablesOk;
    SameTables(s, Resume(s));
  }

  lemma QuietStepsKeep(s: State)
    requires Inv(s) && s.isr == 0
    ensures !s.queueRunning ==> Inv(s.(queueRunning := true))
    ensures s.head.Some? ==> Inv(s.(head := None))
    ensures !s.queueRunning ==> s.kernel.Running? && !s.resuming
  {
    hide TablesOk, HistoryOk;
    SameTables(s, s.(queueRunning := true));
    SameHistory(s, s.(queueRunning := true));
    SameTables(s, s.(head := None));
    SameHistory(s, s.(head := None));
  }

  lemma CallKeeps(s: State, call: Syscall)
    requires Inv(s) && Enabled(s, Call(call))
    ensures match Step(s, Call(call)) case Ok(s') => Inv(s') case Halt(why) => Excused(why)
  {
    hide Calling, TablesOk, HistoryOk, SchedOk, StartupOk, Perform;
    NobodyFinished(s);
    PerformKeeps(s.(isr := 1), call);
  }

  /** No step breaks the invariant, and no step halts without an excuse. */
  lemma StepKeeps(s: State, a: Action)
    requires Inv(s) && Enabled(s, a)
    ensures match Step(s, a) case Ok(s') => Inv(s') case Halt(why) => Excused(why)
  {
    hide Inv, RunTask, StartImage, OnTick, Emit, OnKernelHandlingFinished, Perform;
    match a
    case Startup(image) =>
      QuietStepsKeep(s);
      StartKeeps(s, image);
    case StartQueue =>
      QuietStepsKeep(s);
    case Call(call) =>
      CallKeeps(s, call);
    case Tick =>
      IsrBegins(s);
      TickKeeps(s.(isr := 1));
    case DeviceIrq(d, bytes) =>
      IsrBegins(s);
      EmitKeeps(s.(isr := 1), d, bytes);
    case OtherIsr =>
      IsrBegins(s);
    case IsrEnd =>
      IsrEndKeeps(s);
    case RunHead(image) =>
      RunHeadKeeps(s, image);
    case PopHead =>
      QuietStepsKeep(s);
    case Idle =>
      IdleKeeps(s);
    case Return =>
      ReturnKeeps(s);
  }

  // ---------------------------------------------------------------- runs

  lemma BootIsSafe(procs: nat, listeners: nat, tokens: nat, bindings: nat, started: seq<bool>)
    requires procs <= tokens
    ensures Inv(Boot(procs, listeners, tokens, bindings, started))
  {
  }

  lemma {:induction false} ExecuteKeeps(s: State, actions: seq<Action>)
    requires Inv(s)
    ensures match Execute(s, actions) case Ok(s') => Inv(s') case Halt(why) => Excused(why)
    decreases |actions|
  {
    hide Inv, Step, Enabled;
    if actions != [] {
      if !Enabled(s, actions[0]) {
        ExecuteKeeps(s, actions[1..]);
      } else {
        StepKeeps(s, actions[0]);
        if Step(s, actions[0]).Ok? {
          ExecuteKeeps(Step(s, actions[0]).value, actions[1..]);
        }
      }
    }
  }

  /** Runs can be put together. */
  lemma {:induction false} GoOn(s: State, first: seq<Action>, s1: State, rest: seq<Action>)
    requires Execute(s, first) == Ok(s1)
    ensures Execute(s, first + rest) == Execute(s1, rest)
    decreases |first|
  {
    hide Step, Enabled;
    if first == [] {
      assert first + rest == rest;
    } else {
      assert (first + rest)[1..] == first[1..] + rest;
      GoOn(if Enabled(s, first[0]) then Step(s, first[0]).value else s, first[1..], s1, rest);
    }
  }
}
