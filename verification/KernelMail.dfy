/** What waits in the run loops: the messages delivered to their process in its current life and not yet collected. */
module KernelMail {
  import opened Outcomes
  import opened RunLoopSpec
  import opened KernelState
  import opened KernelInvariant
  import opened KernelTasks
  import opened KernelRuns
  import opened KernelEffects
  import opened KernelTheorems

  // ---------------------------------------------------------------- every step keeps the record

  lemma RegularKeepsMail(s: State, r: Outcome<State>, cost: int)
    requires Regular(s, r, cost)
    ensures r.Ok? ==> KeepsMail(s, r.value)
  {
    hide KeepsTurn, KeepsMail, Spends, Overfull;
  }

  /** A new process gets an empty run loop. */
  lemma StartKeepsMail(s: State, image: Image)
    requires Inv(s)
    ensures StartImage(s, image).Ok? ==> KeepsMail(s, StartImage(s, image).value)
  {
    hide Inv, ProcSelect, LoopRecorded;
    FreeSlotIsLowest(s.procs, 0);
    var p := FreeSlot(s.procs, 0);
    if p < |s.procs| {
      EmptySlotHasNoMail(s, p);
      EmptyingIsRecorded(s.mail, Born(p), p);
      MailChange(s, p, [], Born(p));
      assert s.loops[p := []] == s.loops;
    }
  }

  lemma EmptySlotHasNoMail(s: State, p: int)
    requires Inv(s) && IsUser(s.procs, p) && s.procs[p].state.Empty?
    ensures |s.loops| == |s.procs| && s.loops[p] == []
  {
    hide HistoryOk;
  }

  lemma TaskKeepsMail(s: State, t: Task, image: Image)
    requires Inv(s) && s.todo != [] && s.todo[0] == t
    ensures RunTask(s, t, image).Ok? ==> KeepsMail(s, RunTask(s, t, image).value)
  {
    hide Inv, Regular, Calm, KeepsMail, StartImage, UnlockProcIfAble, LockProc, CleanIpc, CleanRunLoop, CleanupProc;
    ClearingIsOrderly(s, s);
    RegularKeepsMail(s, Ok(s), 0);
    match t
    case Evaluate => SelectingKeepsMail(s);
    case UnlockIfAble(p) =>
      UnlockIfAbleIsOrderly(s, p);
      RegularKeepsMail(s, UnlockProcIfAble(s, p), 0);
    case WaitForEvent(p) =>
      LockIsOrderly(s, p, EventLock);
      RegularKeepsMail(s, LockProc(s, p, EventLock), 2);
    case Start(p) => StartKeepsMail(s, image);
    case DevCleanup(p) =>
      ElsewhereIsRegular(s, CleanDevices(s, p));
      RegularKeepsMail(s, Ok(CleanDevices(s, p)), 0);
    case IpcCleanup(p) =>
      CleanIpcIsOrderly(s, p);
      RegularKeepsMail(s, CleanIpc(s, p), 0);
    case RunLoopCleanup(p) =>
      OwnerIsFinished(s, p);
      CleanRunLoopIsRegular(s, p);
      RegularKeepsMail(s, CleanRunLoop(s, p), 0);
    case ProcCleanup(p) =>
      CleanupProcIsRegular(s, p);
      RegularKeepsMail(s, CleanupProc(s, p), 0);
  }

  lemma SelectingKeepsMail(s: State)
    ensures KeepsMail(s, s.(next := ProcSelect(s.procs, s.last)))
  {
    hide ProcSelect, LoopRecorded;
  }

  lemma CallKeepsMail(s: State, p: int, call: Syscall)
    requires 0 <= p < |s.loops| && p < |s.mapped|
    ensures Perform(s, p, call).Ok? ==> KeepsMail(s, Perform(s, p, call).value)
  {
    hide Perform, Regular, Calm, KeepsMail, Bye;
    if call.CallBye? || call.CallFug? {
      ByeIsOrderly(s, p);
      EndingIsBye(s, p, call);
    } else {
      PerformIsOrderly(s, p, call);
      RegularKeepsMail(s, Perform(s, p, call), 3);
    }
  }

  lemma StepKeepsMail(s: State, a: Action)
    requires Inv(s) && Enabled(s, a)
    ensures Step(s, a).Ok? ==> KeepsMail(s, Step(s, a).value)
  {
    hide Inv, Regular, Calm, LoopRecorded, StartImage, Perform, Emit, OnTick, RunTask;
    var s1 := s.(isr := 1);
    match a
    case Startup(image) => StartKeepsMail(s, image);
    case Call(call) => CallKeepsMail(s1, s.current, call);
    case Tick =>
      TickIsRegular(s1);
      RegularKeepsMail(s1, OnTick(s1), 0);
    case DeviceIrq(d, bytes) =>
      EmitIsOrderly(s1, d, bytes);
      RegularKeepsMail(s1, First(Emit(s1, d, bytes)), 0);
    case RunHead(image) => TaskKeepsMail(s, s.todo[0], image);
    case _ =>
  }

  lemma {:induction false} ExecuteKeepsMail(s: State, run: seq<Action>)
    requires Inv(s) && MailOk(s)
    ensures match Execute(s, run) case Ok(s') => MailOk(s') case Halt(_) => true
    decreases |run|
  {
    hide Inv, Step, Enabled, MailOk;
    if run != [] {
      if !Enabled(s, run[0]) {
        ExecuteKeepsMail(s, run[1..]);
      } else if Step(s, run[0]).Ok? {
        StepKeeps(s, run[0]);
        StepKeepsMail(s, run[0]);
        ExecuteKeepsMail(Step(s, run[0]).value, run[1..]);
      }
    }
  }

  lemma ReachedIsRecorded(b: Sizes, run: seq<Action>, s: State)
    requires Reaches(b, run, s)
    ensures MailOk(s)
  {
    hide Inv, Execute;
    BootIsSafe(b.procs, b.listeners, b.tokens, b.bindings, b.started);
    ExecuteKeepsMail(Boot(b.procs, b.listeners, b.tokens, b.bindings, b.started), run);
  }

  // ---------------------------------------------------------------- which messages wait

  predicate LifeOver(m: Mail, q: int) {
    m == Born(q) || m == Gone(q)
  }

  /** Entry i is a delivery to q in q's current life, and q has not collected as many as were delivered in it before. */
  ghost predicate Uncollected(mail: seq<Mail>, i: nat, q: int)
    requires i < |mail|
  {
    && mail[i].Delivered? && mail[i].target == q
    && (forall k :: i < k < |mail| ==> !LifeOver(mail[k], q))
    && Collections(mail, q) <= |Arrivals(mail[..i], q)|
  }

  /** The j-th arrival of this life is somewhere in the record. */
  lemma {:induction false} ArrivalIsDelivery(mail: seq<Mail>, q: int, j: nat) returns (i: nat)
    requires j < |Arrivals(mail, q)|
    ensures i < |mail| && mail[i] == Delivered(Arrivals(mail, q)[j], q) && |Arrivals(mail[..i], q)| == j
    ensures forall k :: i < k < |mail| ==> !LifeOver(mail[k], q)
    decreases |mail|
  {
    var n := |mail| - 1;
    if mail[n].Delivered? && mail[n].target == q && j == |Arrivals(mail, q)| - 1 {
      i := n;
    } else {
      i := ArrivalIsDelivery(mail[..n], q, j);
      assert mail[..n][..i] == mail[..i];
    }
  }

  lemma {:induction false} DeliveryIsArrival(mail: seq<Mail>, q: int, i: nat)
    requires i < |mail| && mail[i].Delivered? && mail[i].target == q
    requires forall k :: i < k < |mail| ==> !LifeOver(mail[k], q)
    ensures var j := |Arrivals(mail[..i], q)|; j < |Arrivals(mail, q)| && Arrivals(mail, q)[j] == mail[i].message
    decreases |mail|
  {
    var n := |mail| - 1;
    if i < n {
      DeliveryIsArrival(mail[..n], q, i);
      assert mail[..n][..i] == mail[..i];
      assert !LifeOver(mail[n], q);
    }
  }

  /** A message that names p as its sender waits in the run loop of q. */
  ghost predicate Waiting(s: State, p: int, q: int) {
    && 0 <= q < |s.loops|
    && exists j :: 0 <= j < |s.loops[q]| && s.loops[q][j].Filled? && s.loops[q][j].item.source == p
  }

  ghost predicate SentAndUncollected(mail: seq<Mail>, p: int, q: int) {
    exists i :: 0 <= i < |mail| && Uncollected(mail, i, q) && mail[i].message.source == p
  }

  /** It waits exactly if it was delivered in the current life of q and q has not collected it. */
  lemma WaitingIsUncollected(s: State, p: int, q: int)
    requires MailOk(s) && 0 <= q < |s.loops| && p != NONE_PROC_ID
    ensures Waiting(s, p, q) <==> SentAndUncollected(s.mail, p, q)
  {
    assert LoopRecorded(s.loops[q], s.mail, q);
    var c := Collections(s.mail, q);
    var f := s.loops[q];
    if Waiting(s, p, q) {
      var j :| 0 <= j < |f| && f[j].Filled? && f[j].item.source == p;
      assert Messages(f)[j] == f[j].item && Arrivals(s.mail, q)[c + j] == f[j].item;
      var i := ArrivalIsDelivery(s.mail, q, c + j);
      assert Uncollected(s.mail, i, q);
    }
    if SentAndUncollected(s.mail, p, q) {
      var i :| 0 <= i < |s.mail| && Uncollected(s.mail, i, q) && s.mail[i].message.source == p;
      DeliveryIsArrival(s.mail, q, i);
      var j := |Arrivals(s.mail[..i], q)| - c;
      assert Messages(f)[j] == s.mail[i].message;
      assert f[j].Filled? && f[j].item.source == p;
    }
  }

  lemma RunLoopsHoldTheUncollected(b: Sizes, run: seq<Action>, s: State, p: int, q: int)
    requires Reaches(b, run, s) && IsUser(s.procs, q) && p != NONE_PROC_ID
    ensures Waiting(s, p, q) <==> SentAndUncollected(s.mail, p, q)
    ensures |s.loops| == |s.procs| && LoopRecorded(s.loops[q], s.mail, q)
  {
    hide Inv, Reaches, Waiting, SentAndUncollected;
    ReachedIsSafe(b, run, s);
    ReachedIsRecorded(b, run, s);
    LoopsMatchProcs(s);
    WaitingIsUncollected(s, p, q);
    assert LoopRecorded(s.loops[q], s.mail, q);
  }

  lemma LoopsMatchProcs(s: State)
    requires Inv(s)
    ensures |s.loops| == |s.procs|
  {
    hide HistoryOk;
  }

  /**
    * When a slot is handed out, a run loop still names it exactly if its former owner delivered there something that has
    * not been collected: the new process then passes for the sender.
    */
  lemma ReusedSlotIsNamedIffUncollected(b: Sizes, run: seq<Action>, s: State, p: int, q: int)
    requires Reaches(b, run, s) && Spawn(s).1 == Some(p) && IsUser(s.procs, q)
    ensures Waiting(Spawn(s).0, p, q) <==> q != p && SentAndUncollected(s.mail, p, q)
  {
    hide Inv, Reaches, Waiting, SentAndUncollected, FreeSlot;
    ReachedIsSafe(b, run, s);
    ReachedIsRecorded(b, run, s);
    LoopsMatchProcs(s);
    FreeSlotIsLowest(s.procs, 0);
    EmptySlotHasNoMail(s, p);
    WaitingIsUncollected(s, p, q);
    SpawnKeepsWaiting(s, p, q);
  }

  lemma SpawnKeepsWaiting(s: State, p: int, q: int)
    requires Spawn(s).1 == Some(p) && 0 <= p < |s.loops| && s.loops[p] == []
    ensures Waiting(Spawn(s).0, p, q) <==> Waiting(s, p, q)
    ensures !Waiting(s, p, p)
  {
  }
}
