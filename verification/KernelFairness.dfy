/** Turns and tasks over whole runs: how often others get the processor while a process waits, and the order of the queue. */
module KernelFairness {
  import opened Outcomes
  import opened KernelState
  import opened KernelInvariant
  import opened KernelEffects
  import opened KernelRuns
  import opened KernelTheorems

  // ---------------------------------------------------------------- who is selected

  /** The selection may be made anew, among the processes of the moment. */
  ghost predicate Reselects(s: State, s': State) {
    && s'.last == s.last && s'.resuming == s.resuming
    && |s'.procs| == |s.procs| && SameTurns(s.log, s'.log)
    && (s'.next == s.next || s'.next == ProcSelect(s'.procs, s'.last))
  }

  /** Once a process is selected, only an evaluation selects another. */
  ghost predicate SelectsOnlyWhen(s: State, s': State, evaluation: bool) {
    s.next >= 0 ==> s'.next == if evaluation then ProcSelect(s'.procs, s'.last) else s.next
  }

  lemma RegularReselects(s: State, r: Outcome<State>, cost: int)
    requires Regular(s, r, cost)
    ensures r.Ok? ==> Reselects(s, r.value) && SelectsOnlyWhen(s, r.value, false) && Appends(s, r.value)
  {
    hide ProcSelect, LastSwitched, Changes, Switches, KeepsMail, Spends;
  }

  lemma StartReselects(s: State, image: Image)
    ensures StartImage(s, image).Ok? ==>
      var s' := StartImage(s, image).value; Reselects(s, s') && SelectsOnlyWhen(s, s', false) && Appends(s, s')
  {
    hide ProcSelect, LastSwitched, Changes, Switches;
    Logged(s.log, Spawned(FreeSlot(s.procs, 0)));
  }

  lemma TaskReselects(s: State, t: Task, image: Image)
    ensures RunTask(s, t, image).Ok? ==>
      var s' := RunTask(s, t, image).value; Reselects(s, s') && SelectsOnlyWhen(s, s', t.Evaluate?) && Appends(s, s')
  {
    hide UnlockProcIfAble, StartImage, CleanIpc, LockProc, ProcSelect, LastSwitched, Changes, Switches;
    match t
    case UnlockIfAble(p) =>
      UnlockIfAbleIsOrderly(s, p);
      RegularReselects(s, UnlockProcIfAble(s, p), 0);
    case WaitForEvent(p) =>
      LockIsOrderly(s, p, EventLock);
      RegularReselects(s, LockProc(s, p, EventLock), 2);
    case Start(p) =>
      StartReselects(s, image);
    case IpcCleanup(p) =>
      CleanIpcIsOrderly(s, p);
      RegularReselects(s, CleanIpc(s, p), 0);
    case _ =>
  }

  lemma OtherStepReselects(s: State, a: Action)
    requires Enabled(s, a) && !a.Idle? && !a.Return? && !a.PopHead? && !a.RunHead?
    ensures Step(s, a).Ok? ==>
      var s' := Step(s, a).value; Reselects(s, s') && SelectsOnlyWhen(s, s', false) && Appends(s, s')
  {
    hide StartImage, Perform, Emit, OnTick, SwitchToKernelIfNeeded, ProcSelect, LastSwitched, Changes, Switches, KeepsMail, Spends;
    var s1 := s.(isr := 1);
    match a
    case Startup(image) => StartReselects(s, image);
    case Call(call) => CallReselects(s1, s.current, call);
    case Tick =>
      TickIsRegular(s1);
      RegularReselects(s1, OnTick(s1), 0);
    case DeviceIrq(d, bytes) =>
      EmitIsOrderly(s1, d, bytes);
      RegularReselects(s1, First(Emit(s1, d, bytes)), 0);
    case IsrEnd => LeavingReselects(s.(isr := s.isr - 1), s.next);
    case StartQueue =>
    case OtherIsr =>
  }

  lemma CallReselects(s: State, p: int, call: Syscall)
    requires 0 <= p < |s.loops| && p < |s.mapped|
    ensures Perform(s, p, call).Ok? ==>
      var s' := Perform(s, p, call).value; Reselects(s, s') && SelectsOnlyWhen(s, s', false) && Appends(s, s')
  {
    hide Perform, ProcSelect, LastSwitched, Changes, Switches, KeepsMail, Spends;
    if call.CallBye? || call.CallFug? {
      ByeIsOrderly(s, p);
      EndingIsBye(s, p, call);
    } else {
      PerformIsOrderly(s, p, call);
      RegularReselects(s, Perform(s, p, call), 3);
    }
  }

  lemma LeavingReselects(s: State, p: int)
    ensures SwitchToKernelIfNeeded(s, p).Ok? ==>
      var s' := SwitchToKernelIfNeeded(s, p).value; Reselects(s, s') && SelectsOnlyWhen(s, s', false) && Appends(s, s')
  {
    hide ProcSelect, LastSwitched, Changes, Switches;
  }

  lemma RunHeadReselects(s: State, image: Image)
    requires Enabled(s, RunHead(image))
    ensures Step(s, RunHead(image)).Ok? ==>
      var s' := Step(s, RunHead(image)).value; Reselects(s, s') && SelectsOnlyWhen(s, s', s.todo[0].Evaluate?)
  {
    hide RunTask, ProcSelect, LastSwitched, Changes, Switches;
    TaskReselects(s, s.todo[0], image);
  }

  predicate IsEvaluation(s: State, a: Action) {
    a.RunHead? && s.todo != [] && s.todo[0].Evaluate?
  }

  /** Only handing over and returning from it are about turns. */
  lemma StepReselects(s: State, a: Action)
    requires Enabled(s, a) && !a.Idle? && !a.Return?
    ensures Step(s, a).Ok? ==> var s' := Step(s, a).value; Reselects(s, s') && SelectsOnlyWhen(s, s', IsEvaluation(s, a))
  {
    hide Step, ProcSelect, LastSwitched, Changes, Switches;
    match a
    case RunHead(image) => RunHeadReselects(s, image);
    case PopHead => PoppingReselects(s);
    case _ => OtherStepReselects(s, a);
  }

  lemma PoppingReselects(s: State)
    requires Enabled(s, PopHead)
    ensures Step(s, PopHead).Ok? ==> var s' := Step(s, PopHead).value; Reselects(s, s') && SelectsOnlyWhen(s, s', false)
  {
  }

  // ---------------------------------------------------------------- counting turns

  /** While p is ready, the selection is at most as far round as p is, or has not changed since the last turn. */
  ghost predicate Near(s: State, p: int) {
    !s.resuming && s.next >= 0 ==> s.next == s.last || Distance(|s.procs|, s.last, s.next) <= Distance(|s.procs|, s.last, p)
  }

  /** How many more times the processor can change hands before p has it. */
  ghost function Bound(s: State, p: int): int {
    if Near(s, p) then Distance(|s.procs|, LastSwitched(s.log), p) else |s.procs|
  }

  predicate Waits(s: State, p: int) {
    IsUser(s.procs, p) && s.procs[p].state.Ready?
  }

  /** What the invariant says about the scheduler. */
  ghost predicate Turning(s: State) {
    && -1 <= s.next < |s.procs| && -1 <= s.last < |s.procs|
    && LastSwitched(s.log) == (if s.resuming then s.next else s.last)
  }

  lemma InvTurns(s: State)
    requires Inv(s)
    ensures Turning(s)
  {
  }

  lemma BoundIsPositive(s: State, p: int)
    requires Turning(s) && Waits(s, p)
    ensures 0 <= Bound(s, p) <= |s.procs|
  {
  }

  lemma ReselectingKeepsBound(s: State, s': State, p: int)
    requires Turning(s) && Waits(s, p) && Waits(s', p) && Reselects(s, s')
    ensures Bound(s', p) <= Bound(s, p)
  {
    hide ProcSelect;
    SelectedIsNear(s'.procs, s'.last, p);
    BoundIsPositive(s, p);
  }

  lemma SelectedIsNear(procs: seq<Proc>, last: int, p: int)
    requires 0 <= p < |procs| && -1 <= last < |procs| && procs[p].state.Ready?
    ensures Distance(|procs|, last, ProcSelect(procs, last)) <= Distance(|procs|, last, p)
  {
    SelectionIsNearest(procs, last, 0, p);
  }

  lemma SwitchingLowersBound(s: State, p: int)
    requires Turning(s) && Enabled(s, Idle) && Waits(s, p)
    requires Step(s, Idle).Ok? && Waits(Step(s, Idle).value, p)
    ensures var s' := Step(s, Idle).value; Changes(s'.log) - Changes(s.log) + Bound(s', p) <= Bound(s, p)
  {
    Logged(s.log, Switched(s.next));
  }

  lemma StepLowersBound(s: State, a: Action, p: int)
    requires Inv(s) && Enabled(s, a) && Waits(s, p)
    requires Step(s, a).Ok? && Waits(Step(s, a).value, p)
    ensures var s' := Step(s, a).value; Changes(s'.log) - Changes(s.log) + Bound(s', p) <= Bound(s, p)
  {
    hide Inv, Changes, LastSwitched, Switches, ProcSelect;
    InvTurns(s);
    match a
    case Idle => SwitchingLowersBound(s, p);
    case Return =>
    case _ =>
      StepReselects(s, a);
      ReselectingKeepsBound(s, Step(s, a).value, p);
  }

  // ---------------------------------------------------------------- runs

  /** p is ready, and waits for the processor, in every state of the run. */
  ghost predicate WaitsThroughout(s: State, run: seq<Action>, p: int)
    decreases |run|
  {
    && Waits(s, p)
    && (run != [] ==>
          if !Enabled(s, run[0]) then WaitsThroughout(s, run[1..], p)
          else Step(s, run[0]).Ok? ==> WaitsThroughout(Step(s, run[0]).value, run[1..], p))
  }

  lemma {:induction false} TurnsAreBounded(s: State, run: seq<Action>, p: int)
    requires Inv(s) && WaitsThroughout(s, run, p)
    ensures match Execute(s, run)
            case Ok(s') => Inv(s') && Waits(s', p) && Changes(s'.log) - Changes(s.log) + Bound(s', p) <= Bound(s, p)
            case Halt(_) => true
    decreases |run|
  {
    hide Inv, Step, Changes, Bound, Enabled;
    if run != [] {
      if !Enabled(s, run[0]) {
        TurnsAreBounded(s, run[1..], p);
      } else if Step(s, run[0]).Ok? {
        var s1 := Step(s, run[0]).value;
        WaitsAtFirst(s1, run[1..], p);
        StepKeeps(s, run[0]);
        StepLowersBound(s, run[0], p);
        TurnsAreBounded(s1, run[1..], p);
      }
    }
  }

  lemma WaitsAtFirst(s: State, run: seq<Action>, p: int)
    requires WaitsThroughout(s, run, p)
    ensures Waits(s, p)
  {
  }

  /**
    * Bounded bypass: in a run in which p is ready all the time, the processor goes from one process to another at most as
    * often as there are slots; and at most Distance times, less than that, once an evaluation has seen p ready.
    */
  lemma ReadyProcessIsNotPassedOver(b: Sizes, before: seq<Action>, s: State, run: seq<Action>, s': State, p: int)
    requires Reaches(b, before, s) && WaitsThroughout(s, run, p) && Execute(s, run) == Ok(s')
    ensures Changes(s'.log) - Changes(s.log) <= |s.procs|
    ensures Near(s, p) ==> Changes(s'.log) - Changes(s.log) <= Distance(|s.procs|, LastSwitched(s.log), p) < |s.procs|
  {
    hide Inv, Execute, Changes;
    ReachedIsSafe(b, before, s);
    InvTurns(s);
    WaitsAtFirst(s, run, p);
    TurnsAreBounded(s, run, p);
    InvTurns(s');
    BoundIsPositive(s', p);
    BoundIsPositive(s, p);
  }

  // ---------------------------------------------------------------- turns and evaluations

  /** An evaluation is run in the course of the run. */
  ghost predicate Evaluates(s: State, run: seq<Action>)
    decreases |run|
  {
    && run != []
    && if !Enabled(s, run[0]) then Evaluates(s, run[1..])
       else IsEvaluation(s, run[0]) || (Step(s, run[0]).Ok? && Evaluates(Step(s, run[0]).value, run[1..]))
  }

  predicate Switching(s: State, a: Action) {
    a.Idle? && s.next >= 0
  }

  /** The kernel has evaluated since the last turn: the selection is another process, unless p is the one that had that turn. */
  ghost predicate Reselected(s: State, p: int) {
    !s.resuming && s.next >= 0 && (s.next != LastSwitched(s.log) || s.next == p)
  }

  lemma EvaluationReselects(s: State, image: Image, p: int)
    requires Inv(s) && Enabled(s, RunHead(image)) && s.todo[0].Evaluate?
    requires Step(s, RunHead(image)).Ok? && Waits(Step(s, RunHead(image)).value, p)
    ensures Reselected(Step(s, RunHead(image)).value, p)
  {
    hide LastSwitched;
    InvTurns(s);
    EveryTurnBringsCloser(s.procs, s.last, p);
    SelectionIsNearest(s.procs, s.last, 0, p);
  }

  /** What was selected stays selected until the next evaluation or turn. */
  lemma SelectionStays(s: State, a: Action)
    requires Inv(s) && Enabled(s, a) && !IsEvaluation(s, a) && !Switching(s, a) && s.next >= 0
    ensures Step(s, a).Ok? ==>
      var s' := Step(s, a).value;
      && s'.next == s.next && LastSwitched(s'.log) == LastSwitched(s.log)
      && (s'.resuming == s.resuming || (s.resuming && a.Return?))
  {
    hide Inv, LastSwitched, Changes, Switches, ProcSelect;
    if !a.Return? {
      StepReselects(s, a);
    }
  }

  lemma SameLogWithoutSwitch(s: State, a: Action)
    requires Enabled(s, a) && !Switching(s, a)
    ensures Step(s, a).Ok? ==> SameTurns(s.log, Step(s, a).value.log)
  {
    hide LastSwitched, Changes, Switches, ProcSelect;
    if !a.Return? && !a.Idle? {
      StepReselects(s, a);
    }
  }

  lemma SwitchingIsLogged(s: State, a: Action)
    requires Enabled(s, a) && Switching(s, a)
    ensures Step(s, a).Ok? ==> Step(s, a).value.log == s.log + [Switched(s.next)] && Step(s, a).value.current == s.next
  {
  }

  lemma TurnsGrow(s: State, a: Action)
    requires Enabled(s, a) && Step(s, a).Ok?
    ensures Switches(s.log) <= Switches(Step(s, a).value.log)
    ensures Switching(s, a) ==> |Switches(Step(s, a).value.log)| > |Switches(s.log)|
  {
    hide Step, LastSwitched, Changes, Switches;
    if Switching(s, a) {
      SwitchingIsLogged(s, a);
      Logged(s.log, Switched(s.next));
    } else {
      SameLogWithoutSwitch(s, a);
    }
  }

  lemma {:induction false} TurnsOnlyGrow(s: State, run: seq<Action>)
    ensures match Execute(s, run) case Ok(s') => Switches(s.log) <= Switches(s'.log) case Halt(_) => true
    decreases |run|
  {
    hide Step, Switches, Enabled;
    if run != [] {
      if !Enabled(s, run[0]) {
        TurnsOnlyGrow(s, run[1..]);
      } else if Step(s, run[0]).Ok? {
        TurnsGrow(s, run[0]);
        TurnsOnlyGrow(Step(s, run[0]).value, run[1..]);
      }
    }
  }

  /** Since process q was given the processor: who is selected, depending on whether an evaluation was run. */
  ghost predicate Stay(s: State, q: int, p: int, evaluated: bool) {
    && LastSwitched(s.log) == q
    && if evaluated then Reselected(s, p) else s.next == q && q >= 0
  }

  lemma StepInStay(s: State, a: Action, q: int, p: int, evaluated: bool)
    requires Inv(s) && Enabled(s, a) && !Switching(s, a) && Stay(s, q, p, evaluated)
    requires Step(s, a).Ok? && Waits(Step(s, a).value, p)
    ensures Stay(Step(s, a).value, q, p, evaluated || IsEvaluation(s, a))
  {
    hide Inv, Step, LastSwitched, Changes, Switches, ProcSelect;
    if IsEvaluation(s, a) {
      EvaluationReselects(s, a.image, p);
      SameLogWithoutSwitch(s, a);
    } else {
      SelectionStays(s, a);
    }
  }

  lemma {:induction false} StayGoesOn(s: State, run: seq<Action>, q: int, p: int, evaluated: bool)
    requires Inv(s) && WaitsThroughout(s, run, p) && Stay(s, q, p, evaluated)
    ensures match Execute(s, run)
            case Ok(s') => Switches(s'.log) == Switches(s.log) ==> Inv(s') && Stay(s', q, p, evaluated || Evaluates(s, run))
            case Halt(_) => true
    decreases |run|
  {
    hide Inv, Step, Switches, Enabled, Stay, IsEvaluation, Switching;
    if run != [] {
      if !Enabled(s, run[0]) {
        StayGoesOn(s, run[1..], q, p, evaluated);
      } else if Step(s, run[0]).Ok? {
        var s1 := Step(s, run[0]).value;
        TurnsGrow(s, run[0]);
        TurnsOnlyGrow(s1, run[1..]);
        if !Switching(s, run[0]) {
          WaitsAtFirst(s1, run[1..], p);
          StepKeeps(s, run[0]);
          StepInStay(s, run[0], q, p, evaluated);
          StayGoesOn(s1, run[1..], q, p, evaluated || IsEvaluation(s, run[0]));
          assert Switches(s1.log) == Switches(s.log) by { SameLogWithoutSwitch(s, run[0]); }
        }
      }
    }
  }

  /**
    * From one turn to the next, while p is ready all the time: the processor goes to another process exactly if an
    * evaluation was run in between. (Starting a program selects a process too, but only when none is selected, and here
    * one always is.)
    */
  lemma HandsChangeIffEvaluated(b: Sizes, before: seq<Action>, s: State, run: seq<Action>, s1: State, s2: State, p: int)
    requires Reaches(b, before, s) && s.current != KERNEL_PROC_ID && s.isr == 0
    requires WaitsThroughout(s, run, p) && Execute(s, run) == Ok(s1) && Switches(s1.log) == Switches(s.log)
    requires Enabled(s1, Idle) && Step(s1, Idle) == Ok(s2)
    ensures Switches(s2.log) == Switches(s.log) + [s2.current] && IsUser(s2.procs, s2.current)
    ensures s2.current != s.current <==> Evaluates(s, run)
  {
    hide Inv, Step, Execute, Switches, Changes, LastSwitched, Evaluates, WaitsThroughout;
    ReachedIsSafe(b, before, s);
    WaitsAtFirst(s, run, p);
    StayBegins(s, p);
    StayGoesOn(s, run, s.current, p, false);
    SwitchingIsLogged(s1, Idle);
    InvTurns(s1);
    StepKeeps(s1, Idle);
    InvTurns(s2);
    Logged(s1.log, Switched(s1.next));
    SizesStay(s1);
  }

  lemma SizesStay(s: State)
    requires Enabled(s, Idle) && Step(s, Idle).Ok?
    ensures |Step(s, Idle).value.procs| == |s.procs|
  {
  }

  lemma StayBegins(s: State, p: int)
    requires Inv(s) && s.current != KERNEL_PROC_ID && s.isr == 0 && Waits(s, p)
    ensures Stay(s, s.current, p, false) && p != s.current
  {
  }

  /** Between any two turns, and before the first, an evaluation is run. */
  ghost predicate EveryStayEvaluates(s: State, run: seq<Action>, evaluated: bool)
    decreases |run|
  {
    run != [] ==>
      if !Enabled(s, run[0]) then EveryStayEvaluates(s, run[1..], evaluated)
      else
        && (Switching(s, run[0]) ==> evaluated)
        && (Step(s, run[0]).Ok? ==>
              EveryStayEvaluates(Step(s, run[0]).value, run[1..], !Switching(s, run[0]) && (evaluated || IsEvaluation(s, run[0]))))
  }

  lemma StepCountsTurns(s: State, a: Action, p: int, evaluated: bool)
    requires Inv(s) && Enabled(s, a) && (evaluated ==> Reselected(s, p)) && (Switching(s, a) ==> evaluated)
    requires Step(s, a).Ok? && Waits(Step(s, a).value, p)
    ensures var s' := Step(s, a).value;
            && |Switches(s'.log)| - |Switches(s.log)| == Changes(s'.log) - Changes(s.log)
            && (!Switching(s, a) && (evaluated || IsEvaluation(s, a)) ==> Reselected(s', p))
  {
    hide Inv, Step, LastSwitched, Changes, Switches, ProcSelect;
    if Switching(s, a) {
      SwitchingIsLogged(s, a);
      Logged(s.log, Switched(s.next));
      SwitchedIsNotReady(s);
    } else {
      SameLogWithoutSwitch(s, a);
      if IsEvaluation(s, a) {
        EvaluationReselects(s, a.image, p);
      } else if evaluated {
        SelectionStays(s, a);
      }
    }
  }

  lemma SwitchedIsNotReady(s: State)
    requires Enabled(s, Idle) && s.next >= 0 && Step(s, Idle).Ok?
    ensures !Waits(Step(s, Idle).value, s.next)
  {
  }

  lemma {:induction false} TurnsAreChanges(s: State, run: seq<Action>, p: int, evaluated: bool)
    requires Inv(s) && WaitsThroughout(s, run, p) && (evaluated ==> Reselected(s, p)) && EveryStayEvaluates(s, run, evaluated)
    ensures match Execute(s, run)
            case Ok(s') => |Switches(s'.log)| - |Switches(s.log)| == Changes(s'.log) - Changes(s.log)
            case Halt(_) => true
    decreases |run|
  {
    hide Inv, Step, Switches, Changes, Enabled, Reselected, IsEvaluation, Switching;
    if run != [] {
      if !Enabled(s, run[0]) {
        TurnsAreChanges(s, run[1..], p, evaluated);
      } else if Step(s, run[0]).Ok? {
        var s1 := Step(s, run[0]).value;
        WaitsAtFirst(s1, run[1..], p);
        StepKeeps(s, run[0]);
        StepCountsTurns(s, run[0], p, evaluated);
        TurnsAreChanges(s1, run[1..], p, !Switching(s, run[0]) && (evaluated || IsEvaluation(s, run[0])));
      }
    }
  }

  /** If every stay in the kernel runs an evaluation, a ready process waits for at most as many turns as there are slots. */
  lemma TurnsAreBoundedIfEvaluated(b: Sizes, before: seq<Action>, s: State, run: seq<Action>, s': State, p: int)
    requires Reaches(b, before, s) && WaitsThroughout(s, run, p) && Execute(s, run) == Ok(s')
    requires EveryStayEvaluates(s, run, false)
    ensures |Switches(s'.log)| - |Switches(s.log)| <= |s.procs|
  {
    hide Inv, Execute, Changes, Switches, EveryStayEvaluates;
    ReachedIsSafe(b, before, s);
    TurnsAreChanges(s, run, p, false);
    ReadyProcessIsNotPassedOver(b, before, s, run, s', p);
  }

  // ---------------------------------------------------------------- the queue

  /** All queued tasks, the one that was run and not yet popped included. */
  function Queued(s: State): seq<Task> {
    (if s.head.Some? then [s.head.value] else []) + s.todo
  }

  /** The queue's capacity counts the task being run. */
  lemma DispatchAppends(s: State, t: Task)
    ensures match Dispatch(s, t)
            case Ok(s') => s.queueRunning && |Queued(s)| < MAX_QUEUE_LENGTH && Queued(s') == Queued(s) + [t]
            case Halt(why) => why == if !s.queueRunning then QueueNotRunning else QueueFull
    ensures Dispatch(s, t) == Halt(QueueFull) <==> s.queueRunning && |Queued(s)| >= MAX_QUEUE_LENGTH
  {
    var queued := if s.head.Some? then [s.head.value] else [];
    assert queued + (s.todo + [t]) == queued + s.todo + [t];
  }

  lemma QueuedGrows(s: State, s': State)
    requires Appends(s, s')
    ensures Queued(s) <= Queued(s')
  {
  }

  lemma PopDropsHead(s: State)
    requires s.head.Some?
    ensures Queued(s) != [] && Queued(s)[0] == s.head.value && Queued(s.(head := None)) == Queued(s)[1..]
  {
  }

  /** Popping removes the task that was run; every other step leaves all tasks where they are and may add some behind them. */
  lemma QueueIsFifo(s: State, a: Action, s': State)
    requires Enabled(s, a) && Step(s, a) == Ok(s')
    ensures a.PopHead? ==> Queued(s) != [] && s.head == Some(Queued(s)[0]) && Queued(s') == Queued(s)[1..]
    ensures !a.PopHead? ==> Queued(s) <= Queued(s')
    ensures a.RunHead? ==> Queued(s) != [] && s'.head == Some(Queued(s)[0])
  {
    if a.PopHead? {
      PopDropsHead(s);
    } else if a.RunHead? {
      RunningKeepsQueue(s, a.image);
    } else {
      OtherStepsAppend(s, a);
      QueuedGrows(s, s');
    }
  }

  lemma RunningKeepsQueue(s: State, image: Image)
    requires Enabled(s, RunHead(image)) && Step(s, RunHead(image)).Ok?
    ensures var s' := Step(s, RunHead(image)).value;
            Queued(s) != [] && s'.head == Some(Queued(s)[0]) && Queued(s) <= Queued(s')
  {
    hide RunTask, Reselects;
    TaskReselects(s, s.todo[0], image);
    HeadStays(s, RunTask(s, s.todo[0], image).value);
  }

  lemma OtherStepsAppend(s: State, a: Action)
    requires Enabled(s, a) && !a.PopHead? && !a.RunHead?
    ensures Step(s, a).Ok? ==> Appends(s, Step(s, a).value)
  {
    hide Step, Reselects, SelectsOnlyWhen;
    match a
    case Idle => HandOverKeepsQueue(s);
    case Return => ReturnKeepsQueue(s);
    case _ => OtherStepReselects(s, a);
  }

  lemma HeadStays(s: State, s1: State)
    requires s.head.None? && s.todo != [] && Appends(s, s1)
    ensures Queued(s) <= Queued(Retire(s1, s.todo[0]))
  {
    assert s1.todo == [s.todo[0]] + s1.todo[1..];
  }

  lemma HandOverKeepsQueue(s: State)
    requires Enabled(s, Idle)
    ensures Step(s, Idle).Ok? ==> Appends(s, Step(s, Idle).value)
  {
  }

  lemma ReturnKeepsQueue(s: State)
    requires Enabled(s, Return)
    ensures Step(s, Return).Ok? ==> Appends(s, Step(s, Return).value)
  {
  }
}
