/** How full the task queue can get between two turns of user processes. */
module KernelRoom {
  import opened Outcomes
  import opened RunLoopSpec
  import opened KernelState
  import opened KernelInvariant
  import opened KernelTasks
  import opened KernelRuns
  import opened KernelEffects
  import opened KernelTheorems
  import KernelFairness

  /** Nine tasks for each process, and the five of a process that ends. */
  function MostTasks(procs: nat): nat {
    (DISPATCH_QUEUE_SIZE + 1) * procs + 5
  }

  /** The longest the queue can get in this stay in the kernel. */
  ghost predicate InBounds(s: State) {
    |s.procs| == |s.loops| && Demand(s) <= MostTasks(|s.procs|)
  }

  /** One outcome of a step, from a state that leaves room for its cost. */
  ghost predicate Fits(s: State, r: Outcome<State>) {
    match r
    case Ok(s') => |s'.procs| == |s.procs| && InBounds(s')
    case Halt(why) => why == QueueFull ==> MostTasks(|s.procs|) > MAX_QUEUE_LENGTH
  }

  lemma RegularFits(s: State, r: Outcome<State>, cost: int)
    requires Regular(s, r, cost) && |s.procs| == |s.loops| && Demand(s) + cost <= MostTasks(|s.procs|)
    ensures Fits(s, r)
  {
    hide LastSwitched, Changes, Switches, MailOk, Demand;
  }

  /** With nothing queued, only what may still arrive counts. */
  lemma DemandOfEmptyQueue(s: State)
    requires s.todo == [] && s.head.None? && |s.procs| == |s.loops|
    ensures Demand(s) <= MostTasks(|s.procs|) - 4
  {
    SlackBound(s.procs, s.loops);
  }

  lemma ByeFits(s: State, p: int)
    requires s.todo == [] && s.head.None? && |s.procs| == |s.loops|
    ensures Fits(s, Bye(s, p))
  {
    hide Bye, SameTurns, KeepsMail, TotalSlack, WaitTasks;
    ByeIsOrderly(s, p);
    var r := Bye(s, p);
    if r.Ok? {
      SlackBound(r.value.procs, r.value.loops);
      EndingWaitsForNothing(p);
      assert r.value.todo == EndingTasks(p);
    }
  }

  function EndingTasks(p: int): seq<Task> {
    [DevCleanup(p)] + [IpcCleanup(p)] + [RunLoopCleanup(p)] + [ProcCleanup(p)] + [Evaluate]
  }

  lemma EndingWaitsForNothing(p: int)
    ensures WaitTasks(EndingTasks(p)) == 0
  {
    QueuedWaits([], DevCleanup(p));
    QueuedWaits([DevCleanup(p)], IpcCleanup(p));
    QueuedWaits([DevCleanup(p)] + [IpcCleanup(p)], RunLoopCleanup(p));
    QueuedWaits([DevCleanup(p)] + [IpcCleanup(p)] + [RunLoopCleanup(p)], ProcCleanup(p));
    QueuedWaits([DevCleanup(p)] + [IpcCleanup(p)] + [RunLoopCleanup(p)] + [ProcCleanup(p)], Evaluate);
    assert [] + [DevCleanup(p)] == [DevCleanup(p)];
  }

  lemma CallFits(s: State, call: Syscall)
    requires Inv(s) && Enabled(s, Call(call))
    ensures Fits(s, Step(s, Call(call)))
  {
    hide Inv, Perform, Regular, Calm, Demand, Fits;
    UserHasEmptyQueue(s);
    var s1 := s.(isr := 1);
    DemandOfEmptyQueue(s1);
    FitsAlike(s, s1, Perform(s1, s.current, call));
    if call.CallBye? || call.CallFug? {
      ByeFits(s1, s.current);
      EndingIsBye(s1, s.current, call);
    } else {
      PerformIsOrderly(s1, s.current, call);
      RegularFits(s1, Perform(s1, s.current, call), 3);
    }
  }

  lemma FitsAlike(s: State, s1: State, r: Outcome<State>)
    requires |s1.procs| == |s.procs|
    ensures Fits(s1, r) ==> Fits(s, r)
  {
  }

  lemma UserHasEmptyQueue(s: State)
    requires Inv(s)
    ensures |s.procs| == |s.loops|
    ensures !s.kernel.Running? && s.isr == 0 ==> s.todo == [] && s.head.None?
  {
  }

  lemma StartAsks(s: State, image: Image)
    requires |s.procs| == |s.loops|
    ensures Asks(s, StartImage(s, image), 0)
  {
    hide StartImage, Asks, FreeSlot;
    FreeSlotIsLowest(s.procs, 0);
    StartTakesSlot(s, image);
    var r := StartImage(s, image);
    OtherHaltsAskNothing(s, r);
    if r.Ok? {
      SlotAsks(s, FreeSlot(s.procs, 0), r.value);
    }
  }

  /** Starting a program is about one slot. */
  ghost predicate TakesSlot(s: State, p: nat, s': State) {
    && s' == s.(procs := s'.procs, next := s'.next, mapped := s'.mapped, log := s'.log, mail := s'.mail)
    && (s'.procs == s.procs || (p < |s.procs| == |s'.procs| && s'.procs == s.procs[p := s'.procs[p]] && !s'.procs[p].state.Blocked?))
  }

  lemma StartTakesSlot(s: State, image: Image)
    ensures match StartImage(s, image)
            case Ok(s') => TakesSlot(s, FreeSlot(s.procs, 0), s')
            case Halt(why) => why != QueueFull
  {
    hide ProcSelect, FreeSlot;
    var p := FreeSlot(s.procs, 0);
    if p < |s.procs| {
      var q := s.procs[p].(state := New);
      assert s.procs[p := q][p := EMPTY_PROC] == s.procs[p := EMPTY_PROC];
      assert s.procs[p := q][p := q.(state := Ready)] == s.procs[p := q.(state := Ready)];
    }
  }

  lemma OtherHaltsAskNothing(s: State, r: Outcome<State>)
    ensures r.Halt? && r.reason != QueueFull ==> Asks(s, r, 0)
  {
  }

  /** An empty slot may be used. */
  lemma SlotAsks(s: State, p: nat, s': State)
    requires |s.procs| == |s.loops| && (p < |s.procs| ==> s.procs[p].state.Empty?)
    requires TakesSlot(s, p, s')
    ensures Asks(s, Ok(s'), 0)
  {
    hide TotalSlack, WaitTasks, Slack;
    if s'.procs != s.procs {
      ProcSlack(s, p, s'.procs[p]);
      EmptySlotHasSlack(s.procs[p], s'.procs[p], s.loops[p]);
    }
  }

  lemma EmptySlotHasSlack(q: Proc, q': Proc, f: Fifo<Message>)
    requires q.state.Empty? && !q'.state.Blocked?
    ensures Slack(q', f) <= Slack(q, f)
  {
  }

  /** What the outcome of a task asks for, beyond its place in the queue. */
  ghost predicate Asks(s: State, r: Outcome<State>, cost: int) {
    match r
    case Ok(s') =>
      && |s'.procs| == |s.procs| == |s'.loops| && Demand(s') <= Demand(s) + cost
      && s'.head == s.head && s.todo <= s'.todo
    case Halt(why) => why == QueueFull ==> QueueLength(s) >= MAX_QUEUE_LENGTH || Demand(s) + cost > MAX_QUEUE_LENGTH
  }

  lemma RegularAsks(s: State, r: Outcome<State>, cost: int)
    requires Regular(s, r, cost) && |s.procs| == |s.loops|
    ensures Asks(s, r, cost)
  {
    hide LastSwitched, Changes, Switches, MailOk, Demand;
  }

  /** Only a process that will wait for events is paid for in advance. */
  function TaskCost(t: Task): int {
    if t.WaitForEvent? then 2 else 0
  }

  lemma TaskAsks(s: State, image: Image)
    requires Inv(s) && Enabled(s, RunHead(image)) && |s.procs| == |s.loops|
    ensures !s.todo[0].WaitForEvent? ==> Asks(s, RunTask(s, s.todo[0], image), 0)
  {
    hide Inv, StartImage, UnlockProcIfAble, WaitForEventIfIdle, CleanIpc, CleanRunLoop, CleanupProc, Asks, Regular, Calm;
    match s.todo[0]
    case Evaluate => SelectingAsks(s);
    case UnlockIfAble(p) =>
      UnlockIfAbleIsOrderly(s, p);
      RegularAsks(s, UnlockProcIfAble(s, p), 0);
    case WaitForEvent(p) =>
    case Start(p) => StartAsks(s, image);
    case DevCleanup(p) =>
      ElsewhereIsRegular(s, CleanDevices(s, p));
      RegularAsks(s, Ok(CleanDevices(s, p)), 0);
    case IpcCleanup(p) =>
      CleanIpcIsOrderly(s, p);
      RegularAsks(s, CleanIpc(s, p), 0);
    case RunLoopCleanup(p) =>
      OwnerIsFinished(s, p);
      CleanRunLoopIsRegular(s, p);
      RegularAsks(s, CleanRunLoop(s, p), 0);
    case ProcCleanup(p) =>
      CleanupProcIsRegular(s, p);
      RegularAsks(s, CleanupProc(s, p), 0);
  }

  lemma SelectingAsks(s: State)
    requires |s.procs| == |s.loops|
    ensures Asks(s, Ok(s.(next := ProcSelect(s.procs, s.last))), 0)
  {
    hide ProcSelect, TotalSlack, WaitTasks;
  }

  lemma WaitAsks(s: State, p: int)
    requires |s.procs| == |s.loops|
    ensures match WaitForEventIfIdle(s, p)
            case Ok(s') => Asks(s, Ok(s'), 2)
            case Halt(why) => why == QueueFull ==> QueueLength(s) >= MAX_QUEUE_LENGTH
  {
    hide TotalSlack, WaitTasks, Demand;
    LockIsOrderly(s, p, EventLock);
    ClearingIsOrderly(s, s);
    Cheaper(s, Ok(s), 0, 2);
    var r := WaitForEventIfIdle(s, p);
    if r.Ok? {
      RegularAsks(s, r, 2);
    }
  }

  /** When the task leaves the part of the queue still to be run, what was kept for it is free. */
  lemma RetiringFits(s: State, s1: State)
    requires InBounds(s) && s.todo != [] && s.head.None?
    requires Asks(s, Ok(s1), TaskCost(s.todo[0]))
    ensures |s1.procs| == |s.procs| && InBounds(Retire(s1, s.todo[0]))
  {
    hide TotalSlack;
    assert s1.todo[0] == s.todo[0];
    RetiredWaits(s1.todo);
  }

  lemma TaskFits(s: State, image: Image)
    requires Inv(s) && Enabled(s, RunHead(image)) && InBounds(s)
    ensures Fits(s, Step(s, RunHead(image)))
  {
    hide Inv, TotalSlack, StartImage, UnlockProcIfAble, WaitForEventIfIdle, CleanIpc, CleanRunLoop, CleanupProc, ProcSelect;
    var t := s.todo[0];
    TaskAsks(s, image);
    RetiredWaits(s.todo);
    if t.WaitForEvent? {
      WaitAsks(s, t.p);
    }
    var r := RunTask(s, t, image);
    if r.Ok? {
      RetiringFits(s, r.value);
    }
  }

  /** No step asks for more than there is at most. */
  lemma StepFits(s: State, a: Action)
    requires Inv(s) && Enabled(s, a) && InBounds(s)
    ensures Fits(s, Step(s, a))
  {
    hide Inv, Fits, Regular, Calm, InBounds, Demand, StartImage, Perform, Emit, OnTick, RunTask, SwitchToKernelIfNeeded, OnKernelHandlingFinished;
    match a
    case Startup(image) =>
      StartupFits(s, image);
    case Call(call) => CallFits(s, call);
    case Tick => TickFits(s);
    case DeviceIrq(d, bytes) => IrqFits(s, d, bytes);
    case RunHead(image) => TaskFits(s, image);
    case Idle => IdleFits(s);
    case IsrEnd => IsrEndFits(s);
    case StartQueue => PlainFits(s, a);
    case OtherIsr => PlainFits(s, a);
    case PopHead => PlainFits(s, a);
    case Return => PlainFits(s, a);
  }

  lemma StartupFits(s: State, image: Image)
    requires InBounds(s)
    ensures Fits(s, StartImage(s, image))
  {
    hide StartImage, Demand, Asks, Fits;
    StartAsks(s, image);
    AskingNothingFits(s, StartImage(s, image));
  }

  lemma PlainFits(s: State, a: Action)
    requires Enabled(s, a) && InBounds(s)
    requires a.StartQueue? || a.OtherIsr? || a.PopHead? || a.Return?
    ensures Fits(s, Step(s, a))
  {
    hide TotalSlack, WaitTasks;
  }

  lemma IsrEndFits(s: State)
    requires Enabled(s, IsrEnd) && InBounds(s)
    ensures Fits(s, Step(s, IsrEnd))
  {
    hide TotalSlack, WaitTasks;
    if IsUser(s.procs, s.next) {
      ProcSlack(s, s.next, s.procs[s.next].(state := Ready));
      ProcSlack(s, s.next, s.procs[s.next]);
    }
  }

  lemma IdleFits(s: State)
    requires Enabled(s, Idle) && InBounds(s)
    ensures Fits(s, Step(s, Idle))
  {
    hide TotalSlack, WaitTasks;
    var r := Step(s, Idle);
    if r.Ok? {
      DemandOfEmptyQueue(r.value);
    }
  }

  lemma TickFits(s: State)
    requires Enabled(s, Tick) && InBounds(s)
    ensures Fits(s, Step(s, Tick))
  {
    hide TotalSlack, WaitTasks, Regular, Calm, OnTick;
    var s1 := s.(isr := 1);
    TickIsRegular(s1);
    RegularFits(s1, OnTick(s1), 0);
  }

  lemma IrqFits(s: State, d: nat, bytes: nat)
    requires Enabled(s, DeviceIrq(d, bytes)) && InBounds(s)
    ensures Fits(s, Step(s, DeviceIrq(d, bytes)))
  {
    hide TotalSlack, WaitTasks, Regular, Calm, Emit;
    var s1 := s.(isr := 1);
    EmitIsOrderly(s1, d, bytes);
    RegularFits(s1, First(Emit(s1, d, bytes)), 0);
  }

  lemma AskingNothingFits(s: State, r: Outcome<State>)
    requires InBounds(s) && Asks(s, r, 0)
    ensures Fits(s, r)
  {
    hide Demand;
    LengthIsInDemand(s);
  }

  // ---------------------------------------------------------------- runs

  lemma {:induction false} RunFits(s: State, run: seq<Action>)
    requires Inv(s) && InBounds(s) && MostTasks(|s.procs|) <= MAX_QUEUE_LENGTH
    ensures match Execute(s, run) case Ok(s') => |s'.procs| == |s.procs| && InBounds(s') case Halt(why) => why != QueueFull
    decreases |run|
  {
    hide Inv, Step, Enabled, Demand;
    if run != [] {
      if !Enabled(s, run[0]) {
        RunFits(s, run[1..]);
      } else {
        StepFits(s, run[0]);
        StepKeeps(s, run[0]);
        if Step(s, run[0]).Ok? {
          RunFits(Step(s, run[0]).value, run[1..]);
        }
      }
    }
  }

  lemma BootFits(b: Sizes)
    ensures var s := Boot(b.procs, b.listeners, b.tokens, b.bindings, b.started); |s.procs| == b.procs && InBounds(s)
  {
    DemandOfEmptyQueue(Boot(b.procs, b.listeners, b.tokens, b.bindings, b.started));
  }

  /** With at most nine tasks for each process and five more in the queue, no run halts because the queue is full. */
  lemma QueueNeverFills(b: Sizes, run: seq<Action>)
    requires b.procs <= b.tokens && MostTasks(b.procs) <= MAX_QUEUE_LENGTH
    ensures match Execute(Boot(b.procs, b.listeners, b.tokens, b.bindings, b.started), run)
            case Ok(s) => |KernelFairness.Queued(s)| <= MostTasks(b.procs)
            case Halt(why) => why != QueueFull
  {
    hide Inv, Execute, Demand;
    BootIsSafe(b.procs, b.listeners, b.tokens, b.bindings, b.started);
    BootFits(b);
    var s := Boot(b.procs, b.listeners, b.tokens, b.bindings, b.started);
    RunFits(s, run);
    var r := Execute(s, run);
    if r.Ok? {
      LengthIsInDemand(r.value);
    }
  }

  lemma LengthIsInDemand(s: State)
    requires |s.procs| == |s.loops|
    ensures |KernelFairness.Queued(s)| <= Demand(s)
  {
  }

  /** A run halts only for a full table, run loop or queue, or for a caller that broke the rules of its call. */
  lemma RunsHaltOnlyWithExcuse(b: Sizes, run: seq<Action>)
    requires b.procs <= b.tokens
    ensures match Execute(Boot(b.procs, b.listeners, b.tokens, b.bindings, b.started), run)
            case Ok(_) => true
            case Halt(why) =>
              && why in {QueueFull, ListenerTableFull, PayloadTooLarge, NotificationRefused, DeviceInvalid,
                         ImageRejected, PageNotMapped, HatchWithoutEntry, HatchWithoutHeap}
              && (why == QueueFull ==> MostTasks(b.procs) > MAX_QUEUE_LENGTH)
  {
    hide Inv, Execute, Demand;
    BootIsSafe(b.procs, b.listeners, b.tokens, b.bindings, b.started);
    ExecuteKeeps(Boot(b.procs, b.listeners, b.tokens, b.bindings, b.started), run);
    if MostTasks(b.procs) <= MAX_QUEUE_LENGTH {
      QueueNeverFills(b, run);
    }
  }
}
