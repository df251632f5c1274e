/** Time slices: a process that has had the processor for a whole slice gives it up when another one is ready. */
module KernelSlices {
  import opened Outcomes
  import opened KernelState
  import opened KernelInvariant
  import opened KernelRuns
  import opened KernelEffects
  import opened KernelTheorems
  import opened KernelFairness

  /** The timer interrupts in the course of a run. */
  ghost function Ticks(s: State, run: seq<Action>): nat
    decreases |run|
  {
    if run == [] then 0
    else if !Enabled(s, run[0]) then Ticks(s, run[1..])
    else
      (if run[0].Tick? then 1 else 0)
      + match Step(s, run[0]) case Ok(s1) => Ticks(s1, run[1..]) case Halt(_) => 0
  }

  /** n ticks after a hand-over: they were counted, or an evaluation is queued, or the kernel has run one. */
  ghost predicate Slice(s: State, n: nat, evaluated: bool) {
    && (evaluated ==> s.kernel.Running?)
    && (evaluated || Evaluate in s.todo || (s.elapsed == n && n < GRANULARITY_MS))
  }

  /** Control goes no other way than before, and the slice goes on unless an evaluation is queued. */
  ghost predicate Continues(s: State, s': State) {
    && (s.kernel.Running? ==> s'.kernel.Running?)
    && (Evaluate in s.todo ==> Evaluate in s'.todo)
    && (s'.elapsed == s.elapsed || Evaluate in s'.todo)
  }

  lemma CalmContinues(s: State, s': State)
    requires Calm(s, s')
    ensures Continues(s, s')
  {
    hide KeepsWaiting, KeepsTokens;
  }

  lemma CallContinues(s: State, p: int, call: Syscall)
    requires 0 <= p < |s.loops| && p < |s.mapped|
    ensures Perform(s, p, call).Ok? ==> Continues(s, Perform(s, p, call).value)
  {
    hide Perform, Calm, Regular, Bye;
    if call.CallBye? || call.CallFug? {
      EndingIsBye(s, p, call);
      EndingContinues(s, p);
    } else if IsTableCall(call) {
      TableCallContinues(s, p, call);
    } else {
      PerformIsOrderly(s, p, call);
      if Perform(s, p, call).Ok? {
        CalmContinues(s, Perform(s, p, call).value);
      }
    }
  }

  lemma EndingContinues(s: State, p: int)
    ensures Bye(s, p).Ok? ==> Continues(s, Bye(s, p).value)
  {
  }

  lemma TableCallContinues(s: State, p: int, call: Syscall)
    requires 0 <= p < |s.loops| && p < |s.mapped| && IsTableCall(call)
    ensures Perform(s, p, call).Ok? ==> Continues(s, Perform(s, p, call).value)
  {
  }

  lemma TaskContinues(s: State, t: Task, image: Image)
    ensures RunTask(s, t, image).Ok? ==> Continues(s, RunTask(s, t, image).value)
  {
    hide Calm, Regular, ProcSelect, LockProc, CleanIpc, UnlockProcIfAble, StartImage;
    match t
    case UnlockIfAble(p) =>
      UnlockIfAbleIsOrderly(s, p);
      OrderlyContinues(s, UnlockProcIfAble(s, p), 0);
    case WaitForEvent(p) =>
      LockIsOrderly(s, p, EventLock);
      OrderlyContinues(s, LockProc(s, p, EventLock), 2);
    case Start(p) => StartContinues(s, image);
    case IpcCleanup(p) => CleaningContinues(s, p);
    case _ =>
  }

  lemma OrderlyContinues(s: State, r: Outcome<State>, cost: int)
    requires Orderly(s, r, cost)
    ensures r.Ok? ==> Continues(s, r.value)
  {
    hide Calm, Regular, Continues;
    if r.Ok? {
      CalmContinues(s, r.value);
    }
  }

  lemma StartContinues(s: State, image: Image)
    ensures StartImage(s, image).Ok? ==> Continues(s, StartImage(s, image).value)
  {
  }

  lemma CleaningContinues(s: State, p: int)
    ensures CleanIpc(s, p).Ok? ==> Continues(s, CleanIpc(s, p).value)
  {
    hide CleanIpc, Regular, KeepsWaiting, KeepsTokens;
    CleanIpcIsOrderly(s, p);
  }

  /** Whatever happens but a tick, a hand-over and an evaluation, the slice goes on. */
  lemma StepContinues(s: State, a: Action)
    requires Enabled(s, a) && !a.Tick? && !Switching(s, a) && !IsEvaluation(s, a)
    ensures Step(s, a).Ok? ==> Continues(s, Step(s, a).value)
  {
    hide Perform, RunTask, Emit, StartImage, Continues, Reselects, SelectsOnlyWhen;
    match a
    case Call(call) =>
      CallContinues(s.(isr := 1), s.current, call);
      ContinuesAlike(s);
    case RunHead(image) =>
      TaskContinues(s, s.todo[0], image);
      TaskReselects(s, s.todo[0], image);
      RetiringContinues(s);
    case DeviceIrq(d, bytes) =>
      EmitIsOrderly(s.(isr := 1), d, bytes);
      OrderlyContinues(s.(isr := 1), First(Emit(s.(isr := 1), d, bytes)), 0);
      ContinuesAlike(s);
    case Startup(image) => StartContinues(s, image);
    case _ => ControlContinues(s, a);
  }

  lemma ContinuesAlike(s: State)
    ensures forall s' :: Continues(s.(isr := 1), s') ==> Continues(s, s')
  {
  }

  lemma RetiringContinues(s: State)
    requires s.todo != [] && !s.todo[0].Evaluate?
    ensures forall s' :: Continues(s, s') && s.todo <= s'.todo ==> Continues(s, Retire(s', s.todo[0]))
  {
  }

  lemma ControlContinues(s: State, a: Action)
    requires Enabled(s, a) && !Switching(s, a)
    requires a.StartQueue? || a.OtherIsr? || a.IsrEnd? || a.PopHead? || a.Idle? || a.Return?
    ensures Step(s, a).Ok? ==> Continues(s, Step(s, a).value)
  {
  }

  // ---------------------------------------------------------------- ticks

  /** A tick is counted, and the one that fills the slice queues an evaluation; later ones do nothing. */
  lemma TickCounts(s: State)
    requires Enabled(s, Tick)
    ensures match Step(s, Tick)
            case Ok(s') =>
              s' == s.(isr := 1, elapsed := s'.elapsed, todo := s'.todo)
              && (s.elapsed + 1 < GRANULARITY_MS ==> s'.elapsed == s.elapsed + 1 && s'.todo == s.todo)
              && (s.elapsed + 1 == GRANULARITY_MS ==> s'.elapsed == GRANULARITY_MS && s'.todo == s.todo + [Evaluate])
              && (s.elapsed >= GRANULARITY_MS ==> s'.elapsed == s.elapsed && s'.todo == s.todo)
            case Halt(_) => true
  {
  }

  lemma StepKeepsSlice(s: State, a: Action, n: nat, evaluated: bool)
    requires Enabled(s, a) && !Switching(s, a) && Slice(s, n, evaluated)
    ensures match Step(s, a)
            case Ok(s') => Slice(s', n + if a.Tick? then 1 else 0, evaluated || IsEvaluation(s, a))
            case Halt(_) => true
  {
    hide Step;
    if a.Tick? {
      TickCounts(s);
    } else if IsEvaluation(s, a) {
      EvaluationStaysInKernel(s, a);
    } else {
      StepContinues(s, a);
    }
  }

  lemma EvaluationStaysInKernel(s: State, a: Action)
    requires Enabled(s, a) && IsEvaluation(s, a)
    ensures match Step(s, a) case Ok(s') => s'.kernel.Running? case Halt(_) => true
  {
  }

  lemma {:induction false} SliceGoesOn(s: State, run: seq<Action>, n: nat, evaluated: bool)
    requires Slice(s, n, evaluated)
    ensures match Execute(s, run)
            case Ok(s') => Switches(s'.log) == Switches(s.log) ==> Slice(s', n + Ticks(s, run), evaluated || Evaluates(s, run))
            case Halt(_) => true
    decreases |run|
  {
    hide Step, Switches, Enabled, Slice, IsEvaluation, Switching;
    if run != [] {
      if !Enabled(s, run[0]) {
        SliceGoesOn(s, run[1..], n, evaluated);
      } else if Step(s, run[0]).Ok? {
        var s1 := Step(s, run[0]).value;
        TurnsGrow(s, run[0]);
        TurnsOnlyGrow(s1, run[1..]);
        if !Switching(s, run[0]) {
          StepKeepsSlice(s, run[0], n, evaluated);
          SameLogWithoutSwitch(s, run[0]);
          SliceGoesOn(s1, run[1..], n + if run[0].Tick? then 1 else 0, evaluated || IsEvaluation(s, run[0]));
        }
      }
    }
  }

  lemma SliceBegins(s: State, s': State)
    requires Enabled(s, Idle) && s.next >= 0 && Step(s, Idle) == Ok(s')
    ensures Slice(s', 0, false)
  {
  }

  lemma RunnerHasEmptyQueue(s: State)
    requires Inv(s) && s.kernel.Ready? && s.isr == 0
    ensures s.todo == []
  {
    hide TablesOk, HistoryOk;
  }

  /**
    * As long as a process runs after a hand-over, the ticks since then are what is counted, and fewer than a slice; once there
    * were as many as a slice has, the kernel has run an evaluation or has one queued.
    */
  lemma SlicesEnd(b: Sizes, before: seq<Action>, s0: State, s: State, run: seq<Action>, s': State)
    requires Reaches(b, before, s0) && Enabled(s0, Idle) && s0.next >= 0 && Step(s0, Idle) == Ok(s)
    requires Execute(s, run) == Ok(s') && Switches(s'.log) == Switches(s.log)
    ensures s'.kernel.Ready? && s'.isr == 0 ==> s'.elapsed == Ticks(s, run) < GRANULARITY_MS && !Evaluates(s, run)
    ensures Ticks(s, run) >= GRANULARITY_MS ==> Evaluates(s, run) || Evaluate in s'.todo
  {
    hide Inv, Step, Execute, Switches, Ticks, Evaluates;
    SliceBegins(s0, s);
    SliceGoesOn(s, run, 0, false);
    ReachedByStep(b, before, s0, Idle, s);
    ReachedIsSafe(b, before + [Idle], s);
    ExecuteKeeps(s, run);
    if s'.kernel.Ready? && s'.isr == 0 {
      RunnerHasEmptyQueue(s');
    }
  }

  /**
    * Preemption: after a whole slice during which another process was ready all the time, the processor goes to another one at
    * the next hand-over.
    */
  lemma SlicePreempts(b: Sizes, before: seq<Action>, s0: State, s: State, run: seq<Action>, s1: State, s2: State, p: int)
    requires Reaches(b, before, s0) && Enabled(s0, Idle) && s0.next >= 0 && Step(s0, Idle) == Ok(s)
    requires WaitsThroughout(s, run, p) && Execute(s, run) == Ok(s1) && Switches(s1.log) == Switches(s.log)
    requires Ticks(s, run) >= GRANULARITY_MS
    requires Enabled(s1, Idle) && Step(s1, Idle) == Ok(s2)
    ensures IsUser(s2.procs, s2.current) && s2.current != s.current && Switches(s2.log) == Switches(s.log) + [s2.current]
  {
    hide Inv, Step, Execute, Switches, Ticks, Evaluates, WaitsThroughout;
    SlicesEnd(b, before, s0, s, run, s1);
    SwitchingIsLogged(s0, Idle);
    ReachedByStep(b, before, s0, Idle, s);
    HandedOverRuns(s0, s);
    HandsChangeIffEvaluated(b, before + [Idle], s, run, s1, s2, p);
  }

  lemma HandedOverRuns(s0: State, s: State)
    requires Enabled(s0, Idle) && s0.next >= 0 && Step(s0, Idle) == Ok(s)
    ensures s.current != KERNEL_PROC_ID && s.isr == 0
  {
  }

  /** A tick interrupts the process that runs for an evaluation exactly when it fills the slice. */
  lemma TickEndsSliceIff(b: Sizes, before: seq<Action>, s0: State, s: State, run: seq<Action>, s1: State, s2: State)
    requires Reaches(b, before, s0) && Enabled(s0, Idle) && s0.next >= 0 && Step(s0, Idle) == Ok(s)
    requires Execute(s, run) == Ok(s1) && Switches(s1.log) == Switches(s.log)
    requires s1.kernel.Ready? && Enabled(s1, Tick) && Step(s1, Tick) == Ok(s2)
    ensures s2.todo == if Ticks(s, run) + 1 == GRANULARITY_MS then [Evaluate] else []
  {
    hide Inv, Step, Execute, Switches, Ticks, Evaluates;
    SlicesEnd(b, before, s0, s, run, s1);
    ReachedByStep(b, before, s0, Idle, s);
    ReachedIsSafe(b, before + [Idle], s);
    ExecuteKeeps(s, run);
    RunnerHasEmptyQueue(s1);
    TickCounts(s1);
  }
}
