/** The properties of the kernel, stated for the states that runs from boot reach. */
module KernelTheorems {
  import opened Outcomes
  import opened KernelState
  import opened KernelInvariant
  import opened KernelSteps
  import opened KernelTasks
  import opened KernelRuns

  /** Table sizes; every process can own a reply token of its own. */
  datatype Sizes = Sizes(procs: nat, listeners: nat, tokens: nat, bindings: nat, started: seq<bool>)

  ghost predicate Reaches(b: Sizes, run: seq<Action>, s: State) {
    && b.procs <= b.tokens
    && Execute(Boot(b.procs, b.listeners, b.tokens, b.bindings, b.started), run) == Ok(s)
  }

  lemma ReachedIsSafe(b: Sizes, run: seq<Action>, s: State)
    requires Reaches(b, run, s)
    ensures Inv(s)
  {
    hide Inv, Execute;
    BootIsSafe(b.procs, b.listeners, b.tokens, b.bindings, b.started);
    ExecuteKeeps(Boot(b.procs, b.listeners, b.tokens, b.bindings, b.started), run);
  }

  lemma ReachedByStep(b: Sizes, run: seq<Action>, s: State, a: Action, s': State)
    requires Reaches(b, run, s) && Enabled(s, a) && Step(s, a) == Ok(s')
    ensures Reaches(b, run + [a], s')
  {
    hide Step, Enabled, Boot;
    GoOn(Boot(b.procs, b.listeners, b.tokens, b.bindings, b.started), run, s, [a]);
    assert [a][1..] == [];
  }

  // ---------------------------------------------------------------- scheduling

  /** The processor belongs to the kernel, or to one process with an empty queue. */
  lemma OneRunner(b: Sizes, run: seq<Action>, s: State)
    requires Reaches(b, run, s) && s.isr == 0
    ensures s.kernel.Running? <==> s.current == KERNEL_PROC_ID
    ensures forall p :: 0 <= p < |s.procs| ==> (s.procs[p].state.Running? <==> p == s.current)
    ensures !s.kernel.Running? ==>
      && s.kernel.Ready? && IsUser(s.procs, s.current)
      && s.next == s.current && QueueLength(s) == 0 && !s.procs[s.current].Locked()
  {
    ReachedIsSafe(b, run, s);
  }

  /** With nothing left to run, the selection is a ready, unlocked process, or there is none. */
  lemma SelectionIsSound(b: Sizes, run: seq<Action>, s: State)
    requires Reaches(b, run, s) && s.kernel.Running? && s.todo == []
    ensures s.next == KERNEL_PROC_ID || IsUser(s.procs, s.next)
    ensures s.next == KERNEL_PROC_ID ==> forall p :: 0 <= p < |s.procs| ==> !s.procs[p].state.Ready?
    ensures s.next != KERNEL_PROC_ID ==> s.procs[s.next].state.Ready? && !s.procs[s.next].Locked()
  {
    ReachedIsSafe(b, run, s);
  }

  /** Neither direction of the context switch can meet a state its guards refuse. */
  lemma SwitchesNeverHalt(b: Sizes, run: seq<Action>, s: State)
    requires Reaches(b, run, s)
    ensures Enabled(s, IsrEnd) ==> Step(s, IsrEnd).Ok?
    ensures Enabled(s, Idle) ==> Step(s, Idle).Ok?
  {
    hide Inv, SwitchToKernelIfNeeded, OnKernelHandlingFinished;
    ReachedIsSafe(b, run, s);
    if Enabled(s, IsrEnd) {
      IsrEndKeeps(s);
    }
    if Enabled(s, Idle) {
      IdleKeeps(s);
    }
  }

  /** Whenever a task runs, round robin starts after the process that had the processor last. */
  lemma LastIsLastSwitched(b: Sizes, run: seq<Action>, s: State, image: Image)
    requires Reaches(b, run, s) && Enabled(s, RunHead(image))
    ensures s.last == LastSwitched(s.log)
  {
    ReachedIsSafe(b, run, s);
  }

  // ---------------------------------------------------------------- reply tokens

  /** Outstanding tokens have distinct owners, each of them alive and blocked for its reply. */
  lemma TokenOwnersWait(b: Sizes, run: seq<Action>, s: State)
    requires Reaches(b, run, s)
    ensures forall i :: 0 <= i < |s.replies| && s.replies[i].sender != NONE_PROC_ID ==>
      && IsUser(s.procs, s.replies[i].sender)
      && s.procs[s.replies[i].sender].state.Blocked? && s.procs[s.replies[i].sender].ipc
    ensures forall i, j :: 0 <= i < j < |s.replies| && s.replies[i].sender != NONE_PROC_ID ==>
      s.replies[i].sender != s.replies[j].sender
  {
    ReachedIsSafe(b, run, s);
  }

  /** So a process that sends always finds a free token. */
  lemma SenderFindsToken(b: Sizes, run: seq<Action>, s: State, handler: int, bytes: nat)
    requires Reaches(b, run, s)
    requires IsUser(s.procs, s.current) && s.procs[s.current].state.Running?
    ensures exists i :: 0 <= i < |s.replies| && s.replies[i].sender == NONE_PROC_ID
    ensures TakeToken(s, s.current, handler, bytes) != Halt(ReplyTableFull)
  {
    hide Inv;
    ReachedIsSafe(b, run, s);
    TokenLeft(s, s.current);
    FreeReplyIsLowest(s.replies, 0);
    assert s.replies[FreeReply(s.replies, 0)].sender == NONE_PROC_ID;
  }

  /** The reply will be given, or failed, or the sender is about to be let go. */
  ghost predicate Answered(s: State, p: int) {
    || UnlockIfAble(p) in s.todo
    || exists i :: 0 <= i < |s.replies| && s.replies[i].sender == p && IsUser(s.procs, s.replies[i].handler)
         && (s.procs[s.replies[i].handler].Alive() || IpcCleanup(s.replies[i].handler) in s.todo)
  }

  lemma NoStrandedSender(b: Sizes, run: seq<Action>, s: State, p: int)
    requires Reaches(b, run, s)
    requires IsUser(s.procs, p) && s.procs[p].ipc
    ensures s.procs[p].state.Blocked? && Answered(s, p)
  {
    ReachedIsSafe(b, run, s);
    if UnlockIfAble(p) !in s.todo {
      var i :| 0 <= i < |s.replies| && s.replies[i].sender == p;
      var h := s.replies[i].handler;
      if !s.procs[h].Alive() {
        FinishedIsQueued(s, h);
      }
    }
  }

  lemma FinishedIsQueued(s: State, p: int)
    requires DrainOk(s.procs, s.todo)
    requires IsUser(s.procs, p) && s.procs[p].state.Finished?
    ensures Stage(s.todo) < 4 && ProcCleanup(p) in s.todo
    ensures Stage(s.todo) <= 2 ==> RunLoopCleanup(p) in s.todo
    ensures Stage(s.todo) <= 1 ==> IpcCleanup(p) in s.todo
    ensures Stage(s.todo) <= 0 ==> DevCleanup(p) in s.todo
  {
    forall k | Stage(s.todo) <= k < 4
      ensures CleanupTask(p, k) in s.todo
    {
      assert s.todo[k - Stage(s.todo)] == CleanupTask(p, k);
    }
    assert CleanupTask(p, 3) in s.todo;
    assert Stage(s.todo) <= 2 ==> CleanupTask(p, 2) in s.todo;
    assert Stage(s.todo) <= 1 ==> CleanupTask(p, 1) in s.todo;
    assert Stage(s.todo) <= 0 ==> CleanupTask(p, 0) in s.todo;
  }

  /** An answer really ends the wait: the sender's IPC lock is gone when its token is. */
  lemma AnswerEndsTheWait(b: Sizes, run: seq<Action>, s: State, token: nat)
    requires Reaches(b, run, s) && Interruptible(s)
    requires token < |s.replies| && s.replies[token].sender != NONE_PROC_ID
    requires s.kernel.Ready? ==> IsUser(s.procs, s.current) && s.procs[s.current].state.Running?
    ensures match ReleaseToken(s, token)
            case Ok(s') => !OwnsToken(s'.replies, s.replies[token].sender) && !s'.procs[s.replies[token].sender].ipc
            case Halt(why) => why == QueueFull
  {
    hide OthersOk, WaitersOk, HistoryOk, StartupOk, SchedOk, ModeOk, ReleaseToken;
    ReachedIsSafe(b, run, s);
    ReleaseTokenKeeps(s, token);
  }

  // ---------------------------------------------------------------- events

  /** A process waiting for events has none. */
  lemma NoLostWakeUp(b: Sizes, run: seq<Action>, s: State, p: int)
    requires Reaches(b, run, s)
    requires IsUser(s.procs, p) && s.procs[p].event
    ensures |s.loops| == |s.procs| && s.loops[p] == []
  {
    ReachedIsSafe(b, run, s);
  }

  // ---------------------------------------------------------------- the end of a process

  /** A slot that is handed out is named by no table; KernelMail says when a run loop still names it. */
  lemma SlotsAreReusedClean(b: Sizes, run: seq<Action>, s: State, p: int)
    requires Reaches(b, run, s)
    requires Spawn(s).1 == Some(p)
    ensures IsUser(s.procs, p) && TablesWithout(Spawn(s).0, p)
  {
    hide Inv, TablesWithout;
    ReachedIsSafe(b, run, s);
    SpawnedSlotIsClean(s);
  }

  /** What still names a finished process while its cleanup is under way. */
  lemma CleanupIsInOrder(b: Sizes, run: seq<Action>, s: State, p: int)
    requires Reaches(b, run, s)
    requires IsUser(s.procs, p) && s.procs[p].state.Finished?
    ensures forall q :: 0 <= q < |s.procs| && s.procs[q].state.Finished? ==> q == p
    ensures ProcCleanup(p) in s.todo
    ensures RunLoopCleanup(p) !in s.todo ==> |s.loops| == |s.procs| && s.loops[p] == []
    ensures IpcCleanup(p) !in s.todo ==>
      && (forall i :: 0 <= i < |s.listeners| ==> s.listeners[i].procId != p)
      && TokensWithout(s.replies, p, |s.replies|)
      && BindingsWithout(s.bindings, p, |s.bindings|)
    ensures DevCleanup(p) !in s.todo ==> forall d :: 0 <= d < |s.devices| ==> s.devices[d].holder != p
  {
    ReachedIsSafe(b, run, s);
    FinishedIsQueued(s, p);
  }

  // ---------------------------------------------------------------- bindings

  /**
    * A message reached a listener that requires a binding only after the listener's owner, in its current life,
    * had granted the sender, in its current life, every permission the listener asks for.
    */
  lemma BoundMessagesAreAuthorized(b: Sizes, run: seq<Action>, s: State, i: nat)
    requires Reaches(b, run, s)
    requires i < |s.log| && s.log[i].BoundMessage?
    ensures Covered(s.log[..i], s.log[i])
  {
    hide TablesOk, ModeOk, SchedOk, StartupOk, BindingsGranted, Covered, LastSwitched;
    ReachedIsSafe(b, run, s);
  }

  // ---------------------------------------------------------------- fairness

  /** How many candidates come before p: (p - last - 1) modulo n. */
  function Distance(n: nat, last: int, p: int): int {
    if p > last then p - last - 1 else p - last - 1 + n
  }

  lemma CandidateIs(n: nat, last: int, i: nat)
    requires i < n && -1 <= last < n
    ensures Candidate(n, last, i) == if last + i + 1 < n then last + i + 1 else last + i + 1 - n
  {
    if last + i + 1 < n {
      SmallMod(last + i + 1, n);
    } else {
      SmallMod(last + i + 1 - n, n);
    }
  }

  /** The selection is the ready process with the fewest candidates before it. */
  lemma SelectionIsNearest(procs: seq<Proc>, last: int, i: nat, p: int)
    requires 0 <= p < |procs| && -1 <= last < |procs| && procs[p].state.Ready?
    requires i <= Distance(|procs|, last, p)
    ensures var q := SelectFrom(procs, last, i);
            && 0 <= q < |procs| && procs[q].state.Ready?
            && Distance(|procs|, last, q) <= Distance(|procs|, last, p)
    decreases |procs| - i
  {
    var n := |procs|;
    CandidateIs(n, last, i);
    var q := Candidate(n, last, i);
    if !procs[q].state.Ready? {
      assert i < Distance(n, last, p);
      SelectionIsNearest(procs, last, i + 1, p);
    }
  }

  /** A ready process comes closer with every turn another process gets. */
  lemma EveryTurnBringsCloser(procs: seq<Proc>, last: int, p: int)
    requires 0 <= p < |procs| && -1 <= last < |procs| && procs[p].state.Ready?
    ensures var q := ProcSelect(procs, last);
            0 <= q < |procs| && (q != p ==> Distance(|procs|, q, p) < Distance(|procs|, last, p))
  {
    SelectionIsNearest(procs, last, 0, p);
    var q := ProcSelect(procs, last);
  }

  /** Successive turns, each selected among the processes of its moment, after the process of the turn before. */
  function Previous(last: int, chosen: seq<int>, i: nat): int
    requires i <= |chosen|
  {
    if i == 0 then last else chosen[i - 1]
  }

  ghost predicate Turns(moments: seq<seq<Proc>>, n: nat, last: int, chosen: seq<int>) {
    && |moments| == |chosen|
    && forall i :: 0 <= i < |chosen| ==>
        |moments[i]| == n && chosen[i] == ProcSelect(moments[i], Previous(last, chosen, i))
  }

  /** A process that is ready at every evaluation runs within as many turns as there are slots. */
  lemma {:induction false} BoundedBypass(moments: seq<seq<Proc>>, n: nat, last: int, chosen: seq<int>, p: int)
    requires 0 <= p < n && -1 <= last < n
    requires Turns(moments, n, last, chosen) && Distance(n, last, p) < |chosen|
    requires forall i :: 0 <= i < |moments| ==> moments[i][p].state.Ready?
    ensures exists i :: 0 <= i <= Distance(n, last, p) && chosen[i] == p
    decreases |chosen|
  {
    hide ProcSelect;
    EveryTurnBringsCloser(moments[0], last, p);
    assert chosen[0] == ProcSelect(moments[0], last);
    if chosen[0] != p {
      var rest := chosen[1..];
      assert forall i :: 0 <= i < |rest| ==>
        && moments[1..][i] == moments[i + 1] && rest[i] == chosen[i + 1]
        && Previous(chosen[0], rest, i) == Previous(last, chosen, i + 1);
      BoundedBypass(moments[1..], n, chosen[0], rest, p);
      var i :| 0 <= i <= Distance(n, chosen[0], p) && rest[i] == p;
      assert chosen[i + 1] == p;
    }
  }
}
