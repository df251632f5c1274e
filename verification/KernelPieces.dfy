/** The pieces that runs are put together from. */
module KernelPieces {
  import opened Outcomes
  import opened KernelState
  import opened KernelInvariant
  import opened KernelRuns
  import opened KernelFairness

  // ---------------------------------------------------------------- putting runs together

  lemma {:induction false} WaitOn(s: State, first: seq<Action>, s1: State, rest: seq<Action>, p: int)
    requires Execute(s, first) == Ok(s1) && WaitsThroughout(s, first, p) && WaitsThroughout(s1, rest, p)
    ensures WaitsThroughout(s, first + rest, p)
    decreases |first|
  {
    hide Step, Enabled, Waits;
    if first == [] {
      assert first + rest == rest;
    } else {
      assert (first + rest)[1..] == first[1..] + rest;
      WaitOn(if Enabled(s, first[0]) then Step(s, first[0]).value else s, first[1..], s1, rest, p);
    }
  }

  lemma One(s: State, a: Action, s1: State)
    requires Enabled(s, a) && Step(s, a) == Ok(s1)
    ensures Execute(s, [a]) == Ok(s1)
    ensures forall p :: Waits(s, p) && Waits(s1, p) ==> WaitsThroughout(s, [a], p)
  {
    hide Step, Enabled, Waits;
    assert [a][1..] == [];
  }

  /** A run from s to s1, in which whoever waits at both ends waits all the time. */
  ghost predicate Leads(s: State, run: seq<Action>, s1: State) {
    && Execute(s, run) == Ok(s1)
    && forall p :: Waits(s, p) && Waits(s1, p) ==> WaitsThroughout(s, run, p)
  }

  lemma LeadsOn(s: State, first: seq<Action>, s1: State, rest: seq<Action>, s2: State)
    requires Leads(s, first, s1) && Leads(s1, rest, s2)
    requires forall p :: Waits(s, p) && Waits(s2, p) ==> Waits(s1, p)
    ensures Leads(s, first + rest, s2)
  {
    hide Execute, Waits, WaitsThroughout;
    GoOn(s, first, s1, rest);
    forall p | Waits(s, p) && Waits(s2, p)
      ensures WaitsThroughout(s, first + rest, p)
    {
      WaitOn(s, first, s1, rest, p);
    }
  }

  const WAITING := Proc(Ready, false, false)
  const ACTIVE := Proc(Running, false, false)

  // ---------------------------------------------------------------- pieces of runs

  /** A process runs, and nothing is pending. */
  predicate UserRuns(s: State) {
    && s.kernel.Ready? && s.isr == 0 && s.queueRunning && s.resuming && s.head.None? && s.todo == []
    && 0 <= s.current < |s.procs| && s.current < |s.loops| && s.current < |s.mapped|
    && s.next == s.current && s.procs[s.current] == Proc(Running, false, false)
  }

  /** The end of its system call. */
  predicate UserCalled(s: State) {
    && s.kernel.Ready? && s.isr == 1 && s.queueRunning && s.resuming && s.head.None? && s.todo != []
    && IsUser(s.procs, s.current) && s.next == s.current
    && (s.procs[s.current].state.Running? || s.procs[s.current].state.Finished?)
  }

  function Left(s: State): State
    requires UserCalled(s)
  {
    var q := s.procs[s.current];
    s.(isr := 0, kernel := Running, current := KERNEL_PROC_ID, last := s.current, resuming := false,
       procs := s.procs[s.current := if q.state.Running? then q.(state := Ready) else q])
  }

  const LEAVING: seq<Action> := [IsrEnd] + [Return]

  lemma Leaving(s: State)
    requires UserCalled(s)
    ensures Leads(s, LEAVING, Left(s))
  {
    hide Leads, WaitsThroughout, Execute;
    var s1 := Left(s).(last := s.last, resuming := true);
    One(s, IsrEnd, s1);
    One(s1, Return, Left(s));
    LeadsOne(s, IsrEnd, s1);
    LeadsOne(s1, Return, Left(s));
    LeadsOn(s, [IsrEnd], s1, [Return], Left(s));
  }

  lemma LeadsOne(s: State, a: Action, s1: State)
    requires Enabled(s, a) && Step(s, a) == Ok(s1)
    ensures Leads(s, [a], s1)
  {
    hide Step, Enabled, Waits, WaitsThroughout, Execute;
    One(s, a, s1);
  }

  /** The kernel runs the head of its queue. */
  predicate Queueing(s: State) {
    s.kernel.Running? && s.isr == 0 && s.queueRunning && !s.resuming && s.head.None? && s.todo != []
  }

  const SERVING: seq<Action> := [RunHead(NotLoaded)] + [PopHead]

  lemma Serves(s: State, s1: State)
    requires Queueing(s) && RunTask(s, s.todo[0], NotLoaded) == Ok(s1)
    requires s1.kernel == s.kernel && s1.isr == 0 && s1.todo != []
    requires forall p :: Waits(s, p) <==> Waits(s1, p)
    ensures Leads(s, SERVING, s1.(todo := s1.todo[1..], head := None))
  {
    hide Leads, WaitsThroughout, Execute, RunTask;
    var s2 := Retire(s1, s.todo[0]);
    var s3 := s1.(todo := s1.todo[1..], head := None);
    LeadsOne(s, RunHead(NotLoaded), s2);
    LeadsOne(s2, PopHead, s3);
    LeadsOn(s, [RunHead(NotLoaded)], s2, [PopHead], s3);
  }

  function HandedTo(s: State, q: int): State
    requires IsUser(s.procs, q)
  {
    s.(procs := s.procs[q := s.procs[q].(state := Running)], kernel := Ready, current := q, resuming := true, elapsed := 0,
       log := s.log + [Switched(q)])
  }

  lemma HandsOver(s: State, q: int)
    requires s.kernel.Running? && s.isr == 0 && s.queueRunning && !s.resuming && s.head.None? && s.todo == []
    requires s.next == q && IsUser(s.procs, q) && s.procs[q] == Proc(Ready, false, false)
    ensures Leads(s, [Idle], HandedTo(s, q))
  {
    hide Leads;
    LeadsOne(s, Idle, HandedTo(s, q));
  }

  lemma LeadsExecutes(s: State, run: seq<Action>, s1: State)
    requires Leads(s, run, s1)
    ensures Execute(s, run) == Ok(s1)
  {
  }

  lemma NothingDone(s: State)
    ensures Execute(s, []) == Ok(s)
  {
  }

  lemma UserRunsAtLeisure(s: State)
    requires Inv(s) && s.current != KERNEL_PROC_ID && s.isr == 0
    ensures UserRuns(s)
  {
    hide HistoryOk;
  }

  const YIELDING: seq<Action> := [Call(CallYield)] + (LEAVING + SERVING + [Idle])

  /** A running process gives up the processor, and the evaluation selects q. */
  lemma TurnsOver(s: State, q: int, s1: State)
    requires UserCalled(s) && s.procs[s.current] == ACTIVE && s.todo == [Evaluate]
    requires IsUser(s.procs, q) && Left(s).procs[q] == WAITING && ProcSelect(Left(s).procs, s.current) == q
    requires s1 == HandedTo(Left(s).(todo := [], next := q), q)
    ensures Execute(s, LEAVING + SERVING + [Idle]) == Ok(s1)
  {
    hide Leads, ProcSelect, Execute, WaitsThroughout;
    Leaving(s);
    var s2 := Left(s);
    var s3 := s2.(next := q);
    var s4 := s3.(todo := [], head := None);
    Serves(s2, s3);
    assert s3.todo[1..] == [];
    LeadsOn(s, LEAVING, s2, SERVING, s4);
    HandsOver(s4, q);
    LeadsExecutes(s, LEAVING + SERVING, s4);
    LeadsExecutes(s4, [Idle], s1);
    GoOn(s, LEAVING + SERVING, s4, [Idle]);
  }
}
