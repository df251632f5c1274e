/** Who listens, over whole runs. */
module KernelListeners {
  import opened Outcomes
  import opened IpcPath
  import opened KernelState
  import opened KernelInvariant
  import opened KernelRuns
  import opened KernelReplies
  import opened KernelPromises
  import opened KernelTables
  import opened KernelTheorems
  import KernelEffects

  /** No two listeners share a global path. */
  ghost predicate PathsDiffer(listeners: seq<Listener>) {
    forall i, j :: 0 <= i < j < |listeners| && GlobalPath(listeners[i].path) ==> listeners[i].path != listeners[j].path
  }

  /** Whose listeners ask for bindings hears of destroyed ones. */
  ghost predicate BoundHear(listeners: seq<Listener>) {
    forall i :: 0 <= i < |listeners| && listeners[i].bindingRequired ==> HearsOfEnds(listeners, listeners[i].procId)
  }

  ghost predicate HearsOfEnds(listeners: seq<Listener>, p: int) {
    exists k :: 0 <= k < |listeners| && listeners[k].procId == p && listeners[k].path == SESSION_DESTROYED
  }

  ghost predicate WellListed(listeners: seq<Listener>) {
    PathsDiffer(listeners) && BoundHear(listeners)
  }

  lemma ListingKeeps(s: State, p: int, r: Registration, listeners': seq<Listener>)
    requires Registrable(s, p, r) && WellListed(s.listeners) && p != NONE_PROC_ID
    requires forall i :: 0 <= i < |s.listeners| && s.listeners[i].procId == NONE_PROC_ID ==> s.listeners[i].path == ""
    requires Listed(s.listeners, listeners', Listener(p, r.path, r.bindingRequired, r.mask))
    ensures WellListed(listeners')
  {
    var i :| 0 <= i < |s.listeners| && s.listeners[i].procId == NONE_PROC_ID
             && listeners' == s.listeners[i := Listener(p, r.path, r.bindingRequired, r.mask)];
    PathIsItsBeginning(r.path);
    forall k | 0 <= k < |listeners'| && listeners'[k].bindingRequired
      ensures HearsOfEnds(listeners', listeners'[k].procId)
    {
      var q := listeners'[k].procId;
      assert HearsOfEnds(s.listeners, q);
      var m :| 0 <= m < |s.listeners| && s.listeners[m].procId == q && s.listeners[m].path == SESSION_DESTROYED;
      assert m != i && listeners'[m] == s.listeners[m];
    }
  }

  lemma PathIsItsBeginning(path: string)
    ensures Matches(path, path)
  {
  }

  lemma CleaningKeeps(listeners: seq<Listener>, p: int)
    requires WellListed(listeners)
    ensures WellListed(WithoutListenersOf(listeners, p))
  {
    var cleared := WithoutListenersOf(listeners, p);
    forall i | 0 <= i < |cleared| && cleared[i].bindingRequired
      ensures HearsOfEnds(cleared, cleared[i].procId)
    {
      var q := listeners[i].procId;
      assert HearsOfEnds(listeners, q);
      var k :| 0 <= k < |listeners| && listeners[k].procId == q && listeners[k].path == SESSION_DESTROYED;
      assert cleared[k] == listeners[k];
    }
  }

  lemma FreeHaveNoPath(s: State)
    requires Inv(s)
    ensures forall i :: 0 <= i < |s.listeners| && s.listeners[i].procId == NONE_PROC_ID ==> s.listeners[i].path == ""
  {
    hide HistoryOk;
  }

  lemma CallKeepsListed(s: State, call: Syscall)
    requires Inv(s) && Enabled(s, Call(call)) && WellListed(s.listeners)
    ensures match Step(s, Call(call)) case Ok(s') => WellListed(s'.listeners) case Halt(_) => true
  {
    hide Inv, Perform, WellListed, Registrable, Listed;
    CallBegins(s);
    var s1 := Entered(s);
    if call.CallRegister? {
      CallerIsUser(s1);
      RegisterIsListed(s1, s.current, call.registration);
      FreeHaveNoPath(s1);
      RegisterIsCall(s1, call.registration);
      var r := Register(s1, s.current, call.registration);
      if r.Ok? && Registrable(s1, s.current, call.registration) {
        ListingKeeps(s1, s.current, call.registration, r.value.0.listeners);
      }
    } else if IsMessageCall(call) {
      MessageCallLeavesTables(s1, s.current, call);
    } else if KernelEffects.IsTableCall(call) {
      OtherTableCallLeavesListeners(s1, s.current, call);
    } else {
      QueueingCallLeavesTables(s1, s.current, call);
    }
  }

  lemma RegisterIsCall(s: State, r: Registration)
    requires 0 <= s.current < |s.loops| && s.current < |s.mapped|
    ensures match Register(s, s.current, r)
            case Ok((s', _)) => Perform(s, s.current, CallRegister(r)) == Ok(s')
            case Halt(why) => Perform(s, s.current, CallRegister(r)) == Halt(why)
  {
    hide Register;
  }

  lemma OtherTableCallLeavesListeners(s: State, p: int, call: Syscall)
    requires 0 <= p < |s.loops| && p < |s.mapped| && KernelEffects.IsTableCall(call) && !call.CallRegister?
    ensures match Perform(s, p, call) case Ok(s') => s'.listeners == s.listeners case Halt(_) => true
  {
  }

  lemma TaskKeepsListed(s: State, t: Task, image: Image)
    requires WellListed(s.listeners)
    ensures match RunTask(s, t, image) case Ok(s') => WellListed(s'.listeners) case Halt(_) => true
  {
    hide RunTask, WellListed, CleanIpc;
    if t.IpcCleanup? {
      CleaningLeavesTables(s, t.p);
      CleaningKeeps(s.listeners, t.p);
      CleaningRuns(s, t.p, image);
    } else {
      TaskLeavesTables(s, t, image);
    }
  }

  lemma StepKeepsListed(s: State, a: Action)
    requires Inv(s) && Enabled(s, a) && WellListed(s.listeners)
    ensures match Step(s, a) case Ok(s') => WellListed(s'.listeners) case Halt(_) => true
  {
    hide Inv, Perform, RunTask, WellListed;
    match a
    case Call(call) => CallKeepsListed(s, call);
    case RunHead(image) => TaskKeepsListed(s, s.todo[0], image);
    case _ => OtherStepLeavesTables(s, a);
  }

  lemma {:induction false} ExecuteKeepsListed(s: State, run: seq<Action>)
    requires Inv(s) && WellListed(s.listeners)
    ensures match Execute(s, run) case Ok(s') => WellListed(s'.listeners) case Halt(_) => true
    decreases |run|
  {
    hide Inv, Step, Enabled, WellListed;
    if run != [] {
      if !Enabled(s, run[0]) {
        ExecuteKeepsListed(s, run[1..]);
      } else if Step(s, run[0]).Ok? {
        StepKeeps(s, run[0]);
        StepKeepsListed(s, run[0]);
        ExecuteKeepsListed(Step(s, run[0]).value, run[1..]);
      }
    }
  }

  /**
    * In every run no two listeners share a global path, and a process with a listener that asks for a binding hears of the
    * bindings that are destroyed.
    */
  lemma ListenersAreWellListed(b: Sizes, run: seq<Action>, s: State)
    requires Reaches(b, run, s)
    ensures PathsDiffer(s.listeners) && BoundHear(s.listeners)
  {
    hide Inv, Execute;
    BootIsSafe(b.procs, b.listeners, b.tokens, b.bindings, b.started);
    ExecuteKeepsListed(Boot(b.procs, b.listeners, b.tokens, b.bindings, b.started), run);
  }
}
