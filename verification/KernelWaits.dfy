/** Over whole runs: who waits for a reply or for events does not run before it is there, and every reply token went out. */
module KernelWaits {
  import opened Outcomes
  import opened KernelState
  import opened KernelInvariant
  import opened KernelTasks
  import opened KernelRuns
  import opened KernelEffects
  import opened KernelTheorems
  import opened KernelMail
  import opened KernelFairness
  import opened KernelEndings

  // ---------------------------------------------------------------- steps in which no life begins or ends

  predicate IsLifeTask(t: Task) {
    t.Start? || t.RunLoopCleanup?
  }

  predicate IsLifeStep(s: State, a: Action) {
    a.Startup? || (a.RunHead? && s.todo != [] && IsLifeTask(s.todo[0]))
  }

  /** Nobody is let go unheard, and no token is unexplained. */
  ghost predicate Gentle(s: State, s': State) {
    s.mail <= s'.mail && KeepsWaiting(s, s') && KeepsTokens(s, s') && SameLives(s.mail, s'.mail)
  }

  lemma CalmIsGentle(s: State, s': State)
    requires Calm(s, s')
    ensures Gentle(s, s')
  {
    hide KeepsWaiting, KeepsTokens;
  }

  /** A step that does not touch record, tokens or event locks. */
  lemma StillIsGentle(s: State, s': State)
    requires s'.mail == s.mail && s'.replies == s.replies && |s'.procs| == |s.procs|
    requires forall p :: 0 <= p < |s.procs| && s.procs[p].event ==> s'.procs[p].event
    ensures Gentle(s, s')
  {
  }

  lemma TaskIsGentle(s: State, t: Task, image: Image)
    requires !IsLifeTask(t) && (t.ProcCleanup? && IsUser(s.procs, t.p) ==> !s.procs[t.p].event)
    ensures RunTask(s, t, image).Ok? ==> Gentle(s, RunTask(s, t, image).value)
  {
    hide Gentle, Calm, Regular, ProcSelect, LockProc, CleanIpc, UnlockProcIfAble;
    match t
    case Evaluate => StillIsGentle(s, s.(next := ProcSelect(s.procs, s.last)));
    case UnlockIfAble(p) =>
      UnlockIfAbleIsOrderly(s, p);
      OrderlyIsGentle(s, UnlockProcIfAble(s, p), 0);
    case WaitForEvent(p) =>
      LockIsOrderly(s, p, EventLock);
      OrderlyIsGentle(s, LockProc(s, p, EventLock), 2);
      StillIsGentle(s, s);
    case DevCleanup(p) => StillIsGentle(s, CleanDevices(s, p));
    case IpcCleanup(p) =>
      CleanIpcIsOrderly(s, p);
      GentleCleaning(s, p);
    case ProcCleanup(p) =>
      if CleanupProc(s, p).Ok? {
        StillIsGentle(s, CleanupProc(s, p).value);
      }
  }

  lemma OrderlyIsGentle(s: State, r: Outcome<State>, cost: int)
    requires Orderly(s, r, cost)
    ensures r.Ok? ==> Gentle(s, r.value)
  {
    hide Gentle, Calm, Regular;
    if r.Ok? {
      CalmIsGentle(s, r.value);
    }
  }

  lemma GentleCleaning(s: State, p: int)
    ensures CleanIpc(s, p).Ok? ==> Gentle(s, CleanIpc(s, p).value)
  {
    hide CleanIpc, Regular;
    CleanIpcIsOrderly(s, p);
  }

  lemma CallIsGentle(s: State, p: int, call: Syscall)
    requires 0 <= p < |s.loops| && p < |s.mapped|
    ensures Perform(s, p, call).Ok? ==> Gentle(s, Perform(s, p, call).value)
  {
    hide Perform, Gentle, Calm, Regular, Bye;
    if call.CallBye? || call.CallFug? {
      EndingIsBye(s, p, call);
      EndingIsGentle(s, p);
    } else if IsTableCall(call) {
      TableCallIsGentle(s, p, call);
    } else {
      PerformIsOrderly(s, p, call);
      OrderlyIsGentle(s, Perform(s, p, call), 3);
    }
  }

  lemma EndingIsGentle(s: State, p: int)
    ensures Bye(s, p).Ok? ==> Gentle(s, Bye(s, p).value)
  {
  }

  lemma TableCallIsGentle(s: State, p: int, call: Syscall)
    requires 0 <= p < |s.loops| && p < |s.mapped| && IsTableCall(call)
    ensures Perform(s, p, call).Ok? ==> Gentle(s, Perform(s, p, call).value)
  {
    hide Gentle;
    if Perform(s, p, call).Ok? {
      StillIsGentle(s, Perform(s, p, call).value);
    }
  }

  lemma OtherStepIsGentle(s: State, a: Action)
    requires Enabled(s, a) && !a.Call? && !a.RunHead? && !a.Startup?
    ensures Step(s, a).Ok? ==> Gentle(s, Step(s, a).value)
  {
    hide Gentle, Calm, Regular, Emit, OnTick;
    if a.DeviceIrq? {
      EmitIsOrderly(s.(isr := 1), a.device, a.bytes);
      OrderlyIsGentle(s.(isr := 1), First(Emit(s.(isr := 1), a.device, a.bytes)), 0);
      GentleAlike(s, s.(isr := 1));
    } else if Step(s, a).Ok? {
      TickIsStill(s.(isr := 1));
      StillIsGentle(s, Step(s, a).value);
    }
  }

  lemma TickIsStill(s: State)
    ensures OnTick(s).Ok? ==> var s' := OnTick(s).value; s'.mail == s.mail && s'.replies == s.replies && s'.procs == s.procs
  {
  }

  lemma GentleAlike(s: State, s1: State)
    requires s1.mail == s.mail && s1.procs == s.procs && s1.replies == s.replies
    ensures forall s' :: Gentle(s1, s') ==> Gentle(s, s')
  {
  }

  lemma StepIsGentle(s: State, a: Action)
    requires Inv(s) && Enabled(s, a) && !IsLifeStep(s, a)
    ensures Step(s, a).Ok? ==> Gentle(s, Step(s, a).value)
  {
    hide Inv, Gentle, Perform, RunTask;
    match a
    case Call(call) =>
      CallIsGentle(s.(isr := 1), s.current, call);
      GentleAlike(s, s.(isr := 1));
    case RunHead(image) =>
      if s.todo[0].ProcCleanup? {
        FinishedHasNoLock(s);
      }
      TaskIsGentle(s, s.todo[0], image);
      RetiringIsGentle(s, s.todo[0]);
    case _ => OtherStepIsGentle(s, a);
  }

  lemma FinishedHasNoLock(s: State)
    requires Inv(s) && s.todo != [] && s.todo[0].ProcCleanup?
    ensures IsUser(s.procs, s.todo[0].p) && !s.procs[s.todo[0].p].event
  {
    hide HistoryOk;
  }

  lemma RetiringIsGentle(s: State, t: Task)
    ensures forall s' :: Gentle(s, s') ==> Gentle(s, Retire(s', t))
  {
  }

  // ---------------------------------------------------------------- steps in which one does

  /** One life begins or ends, and it is not that of a process that a token names. */
  ghost predicate OneLife(s: State, s': State) {
    && s'.replies == s.replies && KeepsWaiting(s, s')
    && (s'.mail == s.mail || exists p :: NoTokenNames(s.replies, p) && (s'.mail == s.mail + [Born(p)] || s'.mail == s.mail + [Gone(p)]))
  }

  predicate NoTokenNames(replies: seq<Reply>, p: int) {
    forall i :: 0 <= i < |replies| && replies[i].sender != NONE_PROC_ID ==> replies[i].sender != p && replies[i].handler != p
  }

  lemma EmptySlotHasNoToken(s: State, p: int)
    requires Inv(s) && IsUser(s.procs, p) && s.procs[p].state.Empty?
    ensures NoTokenNames(s.replies, p) && !s.procs[p].event
  {
    hide HistoryOk;
  }

  lemma StartIsOneLife(s: State, image: Image)
    requires Inv(s)
    ensures StartImage(s, image).Ok? ==> OneLife(s, StartImage(s, image).value)
  {
    hide Inv, NoTokenNames, ProcSelect, FreeSlot;
    FreeSlotIsLowest(s.procs, 0);
    var p := FreeSlot(s.procs, 0);
    if p < |s.procs| {
      EmptySlotHasNoToken(s, p);
    }
  }

  lemma DrainedHasNoToken(s: State, p: int)
    requires Inv(s) && s.todo != [] && s.todo[0] == RunLoopCleanup(p)
    ensures NoTokenNames(s.replies, p)
  {
    hide HistoryOk;
  }

  lemma LifeStepIsOneLife(s: State, a: Action)
    requires Inv(s) && Enabled(s, a) && IsLifeStep(s, a)
    ensures Step(s, a).Ok? ==> OneLife(s, Step(s, a).value)
  {
    hide Inv, StartImage, NoTokenNames;
    if a.Startup? {
      StartIsOneLife(s, a.image);
    } else if s.todo[0].Start? {
      StartIsOneLife(s, a.image);
    } else {
      DrainedHasNoToken(s, s.todo[0].p);
    }
  }

  lemma StepKeepsWaiting(s: State, a: Action)
    requires Inv(s) && Enabled(s, a)
    ensures Step(s, a).Ok? ==> s.mail <= Step(s, a).value.mail && KeepsWaiting(s, Step(s, a).value)
  {
    hide Inv, Step, Enabled, KeepsWaiting;
    if IsLifeStep(s, a) {
      LifeStepIsOneLife(s, a);
    } else {
      StepIsGentle(s, a);
    }
  }

  // ---------------------------------------------------------------- tokens

  /** The message that carries token i was delivered by p to h, in the current lives of both. */
  ghost predicate WentOut(mail: seq<Mail>, p: int, h: int, i: nat) {
    exists k :: 0 <= k < |mail| && mail[k] == Delivered(Message(p, i), h) && BothLiveOn(mail, k, p, h)
  }

  ghost predicate BothLiveOn(mail: seq<Mail>, k: nat, p: int, h: int) {
    forall j :: k < j < |mail| ==> !LifeOver(mail[j], p) && !LifeOver(mail[j], h)
  }

  ghost predicate TokensWentOut(s: State) {
    forall i :: 0 <= i < |s.replies| && s.replies[i].sender != NONE_PROC_ID ==>
      WentOut(s.mail, s.replies[i].sender, s.replies[i].handler, i)
  }

  lemma WentOutStays(mail: seq<Mail>, mail': seq<Mail>, p: int, h: int, i: nat)
    requires mail <= mail'
    requires forall j :: |mail| <= j < |mail'| ==> !LifeOver(mail'[j], p) && !LifeOver(mail'[j], h)
    ensures WentOut(mail, p, h, i) || DeliveredSince(mail', |mail|, Message(p, i), h) ==> WentOut(mail', p, h, i)
  {
    if WentOut(mail, p, h, i) {
      var k :| 0 <= k < |mail| && mail[k] == Delivered(Message(p, i), h) && BothLiveOn(mail, k, p, h);
      assert mail'[k] == mail[k] && BothLiveOn(mail', k, p, h);
    } else if DeliveredSince(mail', |mail|, Message(p, i), h) {
      var k :| |mail| <= k < |mail'| && mail'[k] == Delivered(Message(p, i), h);
      assert BothLiveOn(mail', k, p, h);
    }
  }

  lemma GentleKeepsTokensOut(s: State, s': State)
    requires Gentle(s, s') && TokensWentOut(s)
    ensures TokensWentOut(s')
  {
    hide KeepsWaiting, WentOut, DeliveredSince;
    forall i | 0 <= i < |s'.replies| && s'.replies[i].sender != NONE_PROC_ID
      ensures WentOut(s'.mail, s'.replies[i].sender, s'.replies[i].handler, i)
    {
      assert TokenKept(s.replies[i], s'.replies[i], i, s'.mail, |s.mail|);
      WentOutStays(s.mail, s'.mail, s'.replies[i].sender, s'.replies[i].handler, i);
    }
  }

  lemma OneLifeKeepsTokensOut(s: State, s': State)
    requires OneLife(s, s') && TokensWentOut(s)
    ensures TokensWentOut(s')
  {
    hide KeepsWaiting, WentOut;
    forall i | 0 <= i < |s'.replies| && s'.replies[i].sender != NONE_PROC_ID
      ensures WentOut(s'.mail, s'.replies[i].sender, s'.replies[i].handler, i)
    {
      WentOutStays(s.mail, s'.mail, s'.replies[i].sender, s'.replies[i].handler, i);
    }
  }

  lemma {:induction false} ExecuteKeepsTokensOut(s: State, run: seq<Action>)
    requires Inv(s) && TokensWentOut(s)
    ensures match Execute(s, run) case Ok(s') => TokensWentOut(s') case Halt(_) => true
    decreases |run|
  {
    hide Inv, Step, Enabled, TokensWentOut, Gentle, OneLife;
    if run != [] {
      if !Enabled(s, run[0]) {
        ExecuteKeepsTokensOut(s, run[1..]);
      } else if Step(s, run[0]).Ok? {
        var s1 := Step(s, run[0]).value;
        StepKeeps(s, run[0]);
        if IsLifeStep(s, run[0]) {
          LifeStepIsOneLife(s, run[0]);
          OneLifeKeepsTokensOut(s, s1);
        } else {
          StepIsGentle(s, run[0]);
          GentleKeepsTokensOut(s, s1);
        }
        ExecuteKeepsTokensOut(s1, run[1..]);
      }
    }
  }

  /**
    * In every run, every outstanding token is the one that a message of its owner carried into the run loop of its handler, in
    * the current lives of both.
    */
  lemma TokensCameWithMessages(b: Sizes, run: seq<Action>, s: State, i: nat)
    requires Reaches(b, run, s) && i < |s.replies| && s.replies[i].sender != NONE_PROC_ID
    ensures WentOut(s.mail, s.replies[i].sender, s.replies[i].handler, i)
  {
    hide Inv, Execute, WentOut;
    BootIsSafe(b.procs, b.listeners, b.tokens, b.bindings, b.started);
    ExecuteKeepsTokensOut(Boot(b.procs, b.listeners, b.tokens, b.bindings, b.started), run);
  }

  // ---------------------------------------------------------------- events

  /** From one state to the other, p has not been given the processor. */
  ghost predicate WithoutTurn(s: State, s': State, p: int) {
    Switches(s.log) <= Switches(s'.log) && p !in Switches(s'.log)[|Switches(s.log)|..]
  }

  lemma WithoutTurnOn(s: State, s1: State, s2: State, p: int)
    requires WithoutTurn(s, s1, p) && WithoutTurn(s1, s2, p)
    ensures WithoutTurn(s, s2, p)
  {
    hide Switches;
    var n, n1 := |Switches(s.log)|, |Switches(s1.log)|;
    assert Switches(s2.log)[n..] == Switches(s1.log)[n..] + Switches(s2.log)[n1..];
  }

  /** A blocked process is not given the processor. */
  lemma BlockedGetsNoTurn(s: State, a: Action, p: int)
    requires Inv(s) && Enabled(s, a) && Step(s, a).Ok? && IsUser(s.procs, p) && s.procs[p].state.Blocked?
    ensures WithoutTurn(s, Step(s, a).value, p)
  {
    hide Inv, Step, Switches, LastSwitched, Changes;
    if Switching(s, a) {
      SwitchingIsLogged(s, a);
      Logged(s.log, Switched(s.next));
      SelectedIsReady(s, a);
    } else {
      SameLogWithoutSwitch(s, a);
    }
  }

  /** p waits for events, and has not been given the processor. */
  ghost predicate StillWaits(s: State, s': State, p: int) {
    && IsUser(s'.procs, p) && s'.procs[p].event && s'.procs[p].state.Blocked?
    && WithoutTurn(s, s', p)
  }

  lemma StepStillWaits(s: State, a: Action, p: int)
    requires Inv(s) && Enabled(s, a) && Step(s, a).Ok?
    requires IsUser(s.procs, p) && s.procs[p].event && !HeardSince(Step(s, a).value.mail, |s.mail|, p)
    ensures StillWaits(s, Step(s, a).value, p)
  {
    hide Inv, Step, WithoutTurn;
    var s' := Step(s, a).value;
    StepKeepsWaiting(s, a);
    StepKeeps(s, a);
    LockedIsBlocked(s, p);
    LockedIsBlocked(s', p);
    BlockedGetsNoTurn(s, a, p);
  }

  lemma SelectedIsReady(s: State, a: Action)
    requires Enabled(s, a) && Switching(s, a) && Step(s, a).Ok?
    ensures IsUser(s.procs, s.next) && s.procs[s.next].state.Ready?
  {
  }

  lemma LockedIsBlocked(s: State, p: int)
    requires Inv(s) && IsUser(s.procs, p) && s.procs[p].Locked()
    ensures s.procs[p].state.Blocked?
  {
    hide HistoryOk;
  }

  lemma WaitsOn(s: State, s1: State, s2: State, p: int)
    requires StillWaits(s, s1, p) && StillWaits(s1, s2, p)
    ensures StillWaits(s, s2, p)
  {
    hide WithoutTurn;
    WithoutTurnOn(s, s1, s2, p);
  }

  lemma {:induction false} WaiterDoesNotRun(s: State, run: seq<Action>, p: int)
    requires Inv(s) && IsUser(s.procs, p) && s.procs[p].event
    ensures match Execute(s, run)
            case Ok(s') => s.mail <= s'.mail && (HeardSince(s'.mail, |s.mail|, p) || StillWaits(s, s', p))
            case Halt(_) => true
    decreases |run|
  {
    hide Inv, Step, Enabled, StillWaits;
    if run == [] {
      NotYet(s, p);
    } else if !Enabled(s, run[0]) {
      WaiterDoesNotRun(s, run[1..], p);
    } else if Step(s, run[0]).Ok? {
      var s1 := Step(s, run[0]).value;
      StepKeeps(s, run[0]);
      StepKeepsWaiting(s, run[0]);
      RecordGrows(s1, run[1..]);
      if !HeardSince(s1.mail, |s.mail|, p) {
        StepStillWaits(s, run[0], p);
        StillLocked(s, s1, p);
        WaiterDoesNotRun(s1, run[1..], p);
        if Execute(s1, run[1..]).Ok? && StillWaits(s1, Execute(s1, run[1..]).value, p) {
          WaitsOn(s, s1, Execute(s1, run[1..]).value, p);
        }
      }
    }
  }

  lemma NotYet(s: State, p: int)
    requires Inv(s) && IsUser(s.procs, p) && s.procs[p].event
    ensures StillWaits(s, s, p)
  {
    hide Inv;
    LockedIsBlocked(s, p);
  }

  lemma StillLocked(s: State, s1: State, p: int)
    requires StillWaits(s, s1, p)
    ensures IsUser(s1.procs, p) && s1.procs[p].event
  {
  }

  lemma {:induction false} RecordGrows(s: State, run: seq<Action>)
    requires Inv(s)
    ensures match Execute(s, run) case Ok(s') => s.mail <= s'.mail case Halt(_) => true
    decreases |run|
  {
    hide Inv, Step, Enabled;
    if run != [] {
      if !Enabled(s, run[0]) {
        RecordGrows(s, run[1..]);
      } else if Step(s, run[0]).Ok? {
        StepKeeps(s, run[0]);
        StepKeepsWaiting(s, run[0]);
        RecordGrows(Step(s, run[0]).value, run[1..]);
      }
    }
  }

  /**
    * In every run, a process that waits for events stays blocked and is not given the processor until something is delivered
    * to it.
    */
  lemma NobodyRunsUnheard(b: Sizes, before: seq<Action>, s: State, run: seq<Action>, s': State, p: int)
    requires Reaches(b, before, s) && Execute(s, run) == Ok(s')
    requires IsUser(s.procs, p) && s.procs[p].event
    ensures s.mail <= s'.mail
    ensures HeardSince(s'.mail, |s.mail|, p) || StillWaits(s, s', p)
  {
    hide Inv, Execute, HeardSince, StillWaits;
    ReachedIsSafe(b, before, s);
    WaiterDoesNotRun(s, run, p);
  }

  // ---------------------------------------------------------------- replies

  /** In the course of the run, token i is answered by its handler, or its handler is gone. */
  ghost predicate SettlesIn(s: State, run: seq<Action>, i: nat)
    decreases |run|
  {
    && run != []
    && if !Enabled(s, run[0]) then SettlesIn(s, run[1..], i)
       else (i < |s.replies| && Settles(s, run[0], i)) || (Step(s, run[0]).Ok? && SettlesIn(Step(s, run[0]).value, run[1..], i))
  }

  /** The request is still open, and its sender blocked for it; it has not been given the processor. */
  ghost predicate StillOpen(s: State, s': State, i: nat)
    requires i < |s.replies|
  {
    var p := s.replies[i].sender;
    && |s'.replies| == |s.replies| && s'.replies[i] == s.replies[i]
    && IsUser(s'.procs, p) && s'.procs[p].ipc && s'.procs[p].state.Blocked?
    && WithoutTurn(s, s', p)
  }

  lemma StepStillOpen(b: Sizes, before: seq<Action>, s: State, a: Action, s': State, i: nat)
    requires Reaches(b, before, s) && Enabled(s, a) && Step(s, a) == Ok(s')
    requires i < |s.replies| && s.replies[i].sender != NONE_PROC_ID && !Settles(s, a, i)
    ensures StillOpen(s, s', i)
  {
    hide Inv, Step, Execute, Settles, WithoutTurn;
    ReachedIsSafe(b, before, s);
    StepKeeps(s, a);
    RequestEndsIff(b, before, s, a, s', i);
    OwnerIsBlocked(s, i);
    LockedIsBlocked(s, s.replies[i].sender);
    LockedIsBlocked(s', s.replies[i].sender);
    BlockedGetsNoTurn(s, a, s.replies[i].sender);
  }

  lemma OpenAtFirst(b: Sizes, before: seq<Action>, s: State, i: nat)
    requires Reaches(b, before, s) && i < |s.replies| && s.replies[i].sender != NONE_PROC_ID
    ensures StillOpen(s, s, i)
  {
    hide Inv, Execute;
    ReachedIsSafe(b, before, s);
    OwnerIsBlocked(s, i);
    LockedIsBlocked(s, s.replies[i].sender);
  }

  /**
    * In every run, a process that waits for a reply stays blocked and is not given the processor until the handler of its
    * message has answered, or is gone.
    */
  lemma {:induction false} NobodyRunsUnanswered(b: Sizes, before: seq<Action>, s: State, run: seq<Action>, s': State, i: nat)
    requires Reaches(b, before, s) && Execute(s, run) == Ok(s')
    requires i < |s.replies| && s.replies[i].sender != NONE_PROC_ID
    ensures SettlesIn(s, run, i) || StillOpen(s, s', i)
    decreases |run|
  {
    hide Step, Enabled, Reaches, Settles, WithoutTurn;
    if run == [] {
      OpenAtFirst(b, before, s, i);
    } else if !Enabled(s, run[0]) {
      NobodyRunsUnanswered(b, before, s, run[1..], s', i);
    } else if !Settles(s, run[0], i) {
      var s1 := Step(s, run[0]).value;
      StepStillOpen(b, before, s, run[0], s1, i);
      ReachedByStep(b, before, s, run[0], s1);
      NobodyRunsUnanswered(b, before + [run[0]], s1, run[1..], s', i);
      if StillOpen(s1, s', i) {
        WithoutTurnOn(s, s1, s', s.replies[i].sender);
      }
    }
  }
}
