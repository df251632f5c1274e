/** What a process gets from its system calls when nothing comes in between, up to the task that they queue. */
module KernelDuties {
  import opened Outcomes
  import opened RunLoopSpec
  import opened KernelState
  import opened KernelInvariant
  import opened KernelSteps
  import opened KernelRuns
  import opened KernelTasks
  import opened KernelFairness
  import opened KernelTheorems
  import opened KernelPieces
  import KernelPromises

  /** The call, the way back into the kernel, and the task at the head of the queue. */
  function CallThenTask(call: Syscall, image: Image): seq<Action> {
    [Call(call)] + LEAVING + [RunHead(image)]
  }

  lemma CallIsServed(s: State, call: Syscall, s1: State, image: Image, s2: State)
    requires Enabled(s, Call(call)) && Step(s, Call(call)) == Ok(s1) && UserCalled(s1)
    requires RunTask(Left(s1), s1.todo[0], image) == Ok(s2)
    ensures Execute(s, CallThenTask(call, image)) == Ok(Retire(s2, s1.todo[0]))
  {
    hide Execute, RunTask, Enabled, Perform, WaitsThroughout;
    One(s, Call(call), s1);
    Leaving(s1);
    LeadsExecutes(s1, LEAVING, Left(s1));
    GoOn(s, [Call(call)], s1, LEAVING);
    RunsTask(Left(s1), image, s2);
    GoOn(s, [Call(call)] + LEAVING, Left(s1), [RunHead(image)]);
  }

  lemma RunsTask(s: State, image: Image, s2: State)
    requires Queueing(s) && RunTask(s, s.todo[0], image) == Ok(s2)
    ensures Execute(s, [RunHead(image)]) == Ok(Retire(s2, s.todo[0]))
  {
    hide Execute, RunTask, WaitsThroughout;
    One(s, RunHead(image), Retire(s2, s.todo[0]));
  }

  // ---------------------------------------------------------------- waiting for events

  /** The caller is blocked exactly if nothing is there for it. */
  lemma CallerWaitsIffIdle(b: Sizes, before: seq<Action>, s: State) returns (s': State)
    requires Reaches(b, before, s) && s.current != KERNEL_PROC_ID && s.isr == 0
    ensures Execute(s, CallThenTask(CallWaitForEvent, NotLoaded)) == Ok(s')
    ensures 0 <= s.current < |s.loops| && s.current < |s.procs|
    ensures s'.procs == s.procs[s.current := if s.loops[s.current] == [] then Proc(Blocked, true, false) else WAITING]
    ensures s'.loops == s.loops
  {
    hide Inv, Execute, WaitsThroughout, LockProc;
    ReachedIsSafe(b, before, s);
    UserRunsAtLeisure(s);
    var p := s.current;
    KernelPromises.EmptyIfWaiting(s, p);
    var s1 := s.(isr := 1, todo := [WaitForEvent(p)]);
    assert s.todo + [WaitForEvent(p)] == s1.todo;
    KernelPromises.LockingBlocks(Left(s1), p);
    assert LockProc(Left(s1), p, EventLock).Ok? by { LocksAtLeisure(Left(s1), p); }
    var s2 := if s.loops[p] == [] then LockProc(Left(s1), p, EventLock).value else Left(s1);
    CallIsServed(s, CallWaitForEvent, s1, NotLoaded, s2);
    s' := Retire(s2, WaitForEvent(p));
  }

  lemma LocksAtLeisure(s: State, p: int)
    requires IsUser(s.procs, p) && s.procs[p] == WAITING && s.queueRunning && QueueLength(s) < MAX_QUEUE_LENGTH
    ensures LockProc(s, p, EventLock).Ok?
  {
  }

  // ---------------------------------------------------------------- programs

  /** The lowest empty slot. */
  ghost predicate IsNextSlot(procs: seq<Proc>, p: int) {
    && IsUser(procs, p) && procs[p].state.Empty?
    && forall k :: 0 <= k < p ==> !procs[k].state.Empty?
  }

  /** A program that can be loaded becomes a ready process in the lowest empty slot, if there is one. */
  lemma ProgramIsStarted(b: Sizes, before: seq<Action>, s: State, pages: set<int>, entry: nat, heap: nat) returns (s': State)
    requires Reaches(b, before, s) && s.current != KERNEL_PROC_ID && s.isr == 0
    requires entry != 0 && heap != 0
    ensures Execute(s, CallThenTask(CallStart, Loaded(pages, entry, heap))) == Ok(s')
    ensures IsUser(s.procs, s.current) && |s.mapped| == |s.procs|
    ensures var procs := s.procs[s.current := WAITING];
            && (forall p :: IsNextSlot(s.procs, p) ==> s'.procs == procs[p := WAITING] && s'.mapped == s.mapped[p := pages])
            && ((forall p :: !IsNextSlot(s.procs, p)) ==> s'.procs == procs && s'.mapped == s.mapped)
  {
    hide Inv, Execute, WaitsThroughout, ProcSelect, FreeSlot;
    ReachedIsSafe(b, before, s);
    UserRunsAtLeisure(s);
    EmptySlots(s);
    var image := Loaded(pages, entry, heap);
    var s1 := s.(isr := 1, todo := [Start(s.current)]);
    assert s.todo + [Start(s.current)] == s1.todo;
    StartsInSlot(Left(s1), pages, entry, heap);
    SlotsStayEmpty(s, s1);
    var s2 := StartImage(Left(s1), image).value;
    CallIsServed(s, CallStart, s1, image, s2);
    s' := Retire(s2, Start(s.current));
  }

  lemma StartsInSlot(s: State, pages: set<int>, entry: nat, heap: nat)
    requires entry != 0 && heap != 0 && |s.mapped| == |s.procs|
    requires forall p :: 0 <= p < |s.procs| && s.procs[p].state.Empty? ==> !s.procs[p].Locked()
    ensures StartImage(s, Loaded(pages, entry, heap)).Ok?
    ensures var s' := StartImage(s, Loaded(pages, entry, heap)).value;
            && (forall p :: IsNextSlot(s.procs, p) ==> s'.procs == s.procs[p := WAITING] && s'.mapped == s.mapped[p := pages])
            && ((forall p :: !IsNextSlot(s.procs, p)) ==> s'.procs == s.procs && s'.mapped == s.mapped)
  {
    hide ProcSelect, FreeSlot;
    FreeSlotIsLowest(s.procs, 0);
    var p := FreeSlot(s.procs, 0);
    if p < |s.procs| {
      assert IsNextSlot(s.procs, p);
      assert s.procs[p := s.procs[p].(state := New)][p := WAITING] == s.procs[p := WAITING];
    }
  }

  /** A process that runs is in none of them. */
  lemma SlotsStayEmpty(s: State, s1: State)
    requires UserRuns(s) && s1 == s.(isr := 1, todo := s1.todo) && s1.todo != []
    ensures forall p :: IsNextSlot(Left(s1).procs, p) <==> IsNextSlot(s.procs, p)
  {
    assert forall k :: 0 <= k < |s.procs| ==> (Left(s1).procs[k].state.Empty? <==> s.procs[k].state.Empty?);
  }

  lemma EmptySlots(s: State)
    requires Inv(s)
    ensures |s.mapped| == |s.procs|
    ensures forall p :: 0 <= p < |s.procs| && s.procs[p].state.Empty? ==> !s.procs[p].Locked()
  {
    hide HistoryOk;
  }

  // ---------------------------------------------------------------- events

  const COLLECTING: seq<Action> := [Call(CallGetItem)] + [IsrEnd] + [Call(CallGetData)] + [IsrEnd]

  /** Taking an item and its data removes the oldest message and nothing else. */
  lemma OldestIsCollected(b: Sizes, before: seq<Action>, s: State) returns (s': State)
    requires Reaches(b, before, s) && s.current != KERNEL_PROC_ID && s.isr == 0
    ensures Execute(s, COLLECTING) == Ok(s') && 0 <= s.current < |s.loops|
    ensures s.loops[s.current] == [] ==> s' == s
    ensures s.loops[s.current] != [] ==>
      s' == s.(loops := s.loops[s.current := s.loops[s.current][1..]], mail := s.mail + [Collected(s.current)])
  {
    hide Inv, Execute, WaitsThroughout;
    ReachedIsSafe(b, before, s);
    UserRunsAtLeisure(s);
    LoopsAreOk(s);
    var p := s.current;
    var f := s.loops[p];
    if f == [] {
      assert s.loops[p := f] == s.loops;
      s' := s;
      Collects(s, s, s);
    } else {
      var s1 := s.(loops := s.loops[p := f[0 := f[0].(handled := true)]]);
      s' := s.(loops := s.loops[p := f[1..]], mail := s.mail + [Collected(p)]);
      assert FetchItem(f).1 == f[0 := f[0].(handled := true)];
      assert FetchData(s1.loops[p]).1 == f[1..];
      Collects(s, s1, s');
    }
  }

  lemma Collects(s: State, s1: State, s2: State)
    requires UserRuns(s) && UserRuns(s1) && s1.current == s.current && s2.todo == [] && s2.head.None? && s2.isr == 0
    requires WithLoop(s, s.current, FetchItem(s.loops[s.current]).1) == s1
    requires WithLoop(s1, s.current, FetchData(s1.loops[s.current]).1) == s2
    ensures Execute(s, COLLECTING) == Ok(s2)
  {
    hide Execute, FetchItem, FetchData, Perform, WithLoop;
    Reads(s, s.current);
    Reads(s1, s.current);
    Returns(s, CallGetItem, s1);
    Returns(s1, CallGetData, s2);
    GoOn(s, [Call(CallGetItem)] + [IsrEnd], s1, [Call(CallGetData)] + [IsrEnd]);
    assert [Call(CallGetItem)] + [IsrEnd] + ([Call(CallGetData)] + [IsrEnd]) == COLLECTING;
  }

  lemma Reads(s: State, p: int)
    requires 0 <= p < |s.loops| && p < |s.mapped|
    ensures Perform(s.(isr := 1), p, CallGetItem) == Ok(WithLoop(s, p, FetchItem(s.loops[p]).1).(isr := 1))
    ensures Perform(s.(isr := 1), p, CallGetData) == Ok(WithLoop(s, p, FetchData(s.loops[p]).1).(isr := 1))
  {
    hide FetchItem, FetchData;
  }

  /** A call that queues nothing goes straight back to its caller. */
  lemma Returns(s: State, call: Syscall, s1: State)
    requires UserRuns(s) && Perform(s.(isr := 1), s.current, call) == Ok(s1.(isr := 1))
    requires s1.isr == 0 && s1.todo == [] && s1.head.None?
    ensures Execute(s, [Call(call)] + [IsrEnd]) == Ok(s1)
  {
    hide Execute, WaitsThroughout, Perform;
    One(s, Call(call), s1.(isr := 1));
    One(s1.(isr := 1), IsrEnd, s1);
    GoOn(s, [Call(call)], s1.(isr := 1), [IsrEnd]);
  }

  // ---------------------------------------------------------------- yielding

  /** The processor goes to the next ready process round, and back to the caller only if no other is ready. */
  lemma YieldPassesOn(b: Sizes, before: seq<Action>, s: State) returns (s': State)
    requires Reaches(b, before, s) && s.current != KERNEL_PROC_ID && s.isr == 0
    ensures Execute(s, YIELDING) == Ok(s') && s'.kernel.Ready? && IsUser(s'.procs, s'.current)
    ensures forall p :: Waits(s, p) ==>
      s'.current != s.current && Distance(|s.procs|, s.current, s'.current) <= Distance(|s.procs|, s.current, p)
    ensures (forall p :: !Waits(s, p)) ==> s'.current == s.current
  {
    hide Inv, Execute, UserRuns, ProcSelect;
    ReachedIsSafe(b, before, s);
    UserRunsAtLeisure(s);
    CallerIsSomebody(s);
    var p := s.current;
    var procs := s.procs[p := WAITING];
    var q := ProcSelect(procs, p);
    NearestIsReady(procs, p, p);
    SelectedIsFree(s, q);
    s' := YieldsTo(s, q);
    forall r | Waits(s, r)
      ensures q != p && Distance(|s.procs|, p, q) <= Distance(|s.procs|, p, r)
    {
      NearestIsReady(procs, p, r);
    }
  }

  lemma NearestIsReady(procs: seq<Proc>, last: int, p: int)
    requires 0 <= p < |procs| && -1 <= last < |procs| && procs[p].state.Ready?
    ensures var q := ProcSelect(procs, last);
            && 0 <= q < |procs| && procs[q].state.Ready?
            && Distance(|procs|, last, q) <= Distance(|procs|, last, p)
  {
    SelectionIsNearest(procs, last, 0, p);
  }

  lemma CallerIsSomebody(s: State)
    requires UserRuns(s)
    ensures IsUser(s.procs, s.current) && s.procs[s.current].state.Running?
  {
  }

  lemma SelectedIsFree(s: State, q: int)
    requires Inv(s) && UserRuns(s)
    requires IsUser(s.procs, q) && s.procs[s.current := WAITING][q].state.Ready?
    ensures s.procs[s.current := WAITING][q] == WAITING
  {
    hide HistoryOk;
  }

  lemma YieldsTo(s: State, q: int) returns (s': State)
    requires UserRuns(s) && IsUser(s.procs, q) && s.procs[s.current := WAITING][q] == WAITING
    requires ProcSelect(s.procs[s.current := WAITING], s.current) == q
    ensures Execute(s, YIELDING) == Ok(s') && s'.kernel.Ready? && s'.current == q && |s'.procs| == |s.procs|
  {
    hide Execute, WaitsThroughout, ProcSelect;
    var s1 := s.(isr := 1, elapsed := GRANULARITY_MS, todo := [Evaluate]);
    assert s.todo + [Evaluate] == [Evaluate];
    One(s, Call(CallYield), s1);
    s' := HandedTo(Left(s1).(todo := [], next := q), q);
    TurnsOver(s1, q, s');
    GoOn(s, [Call(CallYield)], s1, LEAVING + SERVING + [Idle]);
  }

  // ---------------------------------------------------------------- ending

  /** A process that ends, in either way, is finished, and its cleanup is queued in the order in which it has to run. */
  lemma EndingIsQueued(b: Sizes, before: seq<Action>, s: State, call: Syscall) returns (s': State)
    requires Reaches(b, before, s) && s.current != KERNEL_PROC_ID && s.isr == 0 && (call.CallBye? || call.CallFug?)
    ensures Execute(s, [Call(call)] + LEAVING) == Ok(s') && IsUser(s.procs, s.current)
    ensures var p := s.current;
            && s'.procs == s.procs[p := Proc(Finished, false, false)]
            && s'.todo == [DevCleanup(p), IpcCleanup(p), RunLoopCleanup(p), ProcCleanup(p), Evaluate]
            && s'.loops == s.loops && s'.mapped == s.mapped && s'.replies == s.replies && s'.listeners == s.listeners
            && s'.bindings == s.bindings && s'.devices == s.devices
  {
    hide Inv, Execute, WaitsThroughout, Bye, Left;
    ReachedIsSafe(b, before, s);
    UserRunsAtLeisure(s);
    var p := s.current;
    var s1 := s.(isr := 1, elapsed := GRANULARITY_MS, procs := s.procs[p := Proc(Finished, false, false)],
                 todo := [DevCleanup(p), IpcCleanup(p), RunLoopCleanup(p), ProcCleanup(p), Evaluate]);
    ByeQueues(s.(isr := 1), p);
    One(s, Call(call), s1);
    Leaving(s1);
    LeadsExecutes(s1, LEAVING, Left(s1));
    GoOn(s, [Call(call)], s1, LEAVING);
    s' := Left(s1);
    LeftKeepsFinished(s1);
  }

  lemma ByeQueues(s: State, p: int)
    requires s.queueRunning && s.todo == [] && s.head.None? && IsUser(s.procs, p) && s.procs[p] == ACTIVE
    ensures Bye(s, p) == Ok(s.(elapsed := GRANULARITY_MS, procs := s.procs[p := Proc(Finished, false, false)],
                               todo := [DevCleanup(p), IpcCleanup(p), RunLoopCleanup(p), ProcCleanup(p), Evaluate]))
  {
    assert s.todo + [DevCleanup(p)] + [IpcCleanup(p)] + [RunLoopCleanup(p)] + [ProcCleanup(p)] + [Evaluate]
        == [DevCleanup(p), IpcCleanup(p), RunLoopCleanup(p), ProcCleanup(p), Evaluate];
  }

  lemma LeftKeepsFinished(s: State)
    requires UserCalled(s) && s.procs[s.current].state.Finished?
    ensures Left(s) == s.(isr := 0, kernel := Running, current := KERNEL_PROC_ID, last := s.current, resuming := false)
  {
    assert s.procs[s.current := s.procs[s.current]] == s.procs;
  }
}
