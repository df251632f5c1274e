/** What holds of the kernel between any two of its steps. */
module KernelInvariant {
  import opened RunLoopSpec
  import opened KernelState

  // ---------------------------------------------------------------- the cleanup of a finished process

  predicate IsCleanup(t: Task) {
    t.DevCleanup? || t.IpcCleanup? || t.RunLoopCleanup? || t.ProcCleanup?
  }

  /** The four tasks queued for a process that ends, in order. */
  function CleanupTask(p: int, k: nat): Task
    requires k < 4
  {
    if k == 0 then DevCleanup(p) else if k == 1 then IpcCleanup(p) else if k == 2 then RunLoopCleanup(p) else ProcCleanup(p)
  }

  /** How many of the four have run; four when no process is being cleaned up. */
  function Stage(todo: seq<Task>): nat {
    if todo == [] then 4
    else match todo[0]
      case DevCleanup(_) => 0
      case IpcCleanup(_) => 1
      case RunLoopCleanup(_) => 2
      case ProcCleanup(_) => 3
      case _ => 4
  }

  /** At most one process is finished, and what is left of its cleanup is at the front of the queue. */
  ghost predicate DrainOk(procs: seq<Proc>, todo: seq<Task>) {
    var k := Stage(todo);
    && (k < 4 ==>
          && 4 - k <= |todo|
          && IsUser(procs, todo[0].p)
          && procs[todo[0].p].state.Finished?
          && forall i :: 0 <= i < 4 - k ==> todo[i] == CleanupTask(todo[0].p, i + k))
    && (forall i :: 4 - k <= i < |todo| ==> !IsCleanup(todo[i]))
    && (forall q :: 0 <= q < |procs| && procs[q].state.Finished? ==> k < 4 && todo[0].p == q)
  }

  /** A table that is cleaned by task k may refer to p. */
  predicate Known(procs: seq<Proc>, todo: seq<Task>, p: int, k: nat) {
    IsUser(procs, p) && (procs[p].Alive() || (procs[p].state.Finished? && Stage(todo) <= k))
  }

  predicate RefOk(procs: seq<Proc>, todo: seq<Task>, p: int, k: nat) {
    p == NONE_PROC_ID || Known(procs, todo, p, k)
  }

  // ---------------------------------------------------------------- parts of the invariant

  /** Exactly one of the kernel and one process has the processor; a process keeps it only with nothing queued. */
  ghost predicate ModeOk(s: State) {
    && (s.kernel.Running? || s.kernel.Ready?)
    && s.isr <= 1
    && (s.kernel.Running? ==>
          && s.current == KERNEL_PROC_ID
          && forall p :: 0 <= p < |s.procs| ==> !s.procs[p].state.Running?)
    && (s.kernel.Ready? ==>
          && IsUser(s.procs, s.current)
          && s.next == s.current
          && s.resuming && s.head.None? && s.queueRunning
          && (s.procs[s.current].state.Running? || s.procs[s.current].state.Blocked? || s.procs[s.current].state.Finished?)
          && !s.procs[s.current].event
          && (s.procs[s.current].state.Running? || Evaluate in s.todo)
          && (s.isr == 0 ==> s.todo == [])
          && forall p :: 0 <= p < |s.procs| && p != s.current ==> !s.procs[p].state.Running?)
  }

  /** Unless an evaluation is queued, the selection is current. */
  ghost predicate SchedOk(s: State) {
    && -1 <= s.next < |s.procs|
    && -1 <= s.last < |s.procs|
    && (s.resuming ==> 0 <= s.next)
    && (s.kernel.Running? && Evaluate !in s.todo ==>
          if s.next < 0 then forall p :: 0 <= p < |s.procs| ==> !s.procs[p].state.Ready?
          else s.procs[s.next].state.Ready?)
  }

  ghost predicate ProcsOk(procs: seq<Proc>) {
    forall p :: 0 <= p < |procs| ==> (procs[p].Locked() <==> procs[p].state.Blocked?) && !procs[p].state.New?
  }

  /** A reply token belongs to a process blocked for it alone, and its handler will answer or be cleaned up. */
  ghost predicate TokensOk(procs: seq<Proc>, todo: seq<Task>, replies: seq<Reply>) {
    && (forall i :: 0 <= i < |replies| ==>
          && (replies[i].sender == NONE_PROC_ID <==> replies[i].handler == NONE_PROC_ID)
          && (replies[i].sender != NONE_PROC_ID ==>
                && IsUser(procs, replies[i].sender)
                && procs[replies[i].sender].state.Blocked? && procs[replies[i].sender].ipc
                && Known(procs, todo, replies[i].handler, 1)))
    && (forall i, j :: 0 <= i < j < |replies| && replies[i].sender != NONE_PROC_ID ==> replies[i].sender != replies[j].sender)
  }

  /** Nobody waits for a reply that will never come. */
  ghost predicate WaitersOk(procs: seq<Proc>, todo: seq<Task>, replies: seq<Reply>) {
    forall p :: 0 <= p < |procs| && procs[p].ipc ==> OwnsToken(replies, p) || UnlockIfAble(p) in todo
  }

  /** Nobody waits for an event that is already there. */
  ghost predicate EventsOk(procs: seq<Proc>, loops: seq<Fifo<Message>>) {
    && |loops| == |procs|
    && forall p :: 0 <= p < |procs| && procs[p].event ==> IsEmpty(loops[p])
  }

  ghost predicate TasksOk(procs: seq<Proc>, todo: seq<Task>) {
    forall i :: 0 <= i < |todo| && (todo[i].UnlockIfAble? || todo[i].WaitForEvent? || todo[i].Start?) ==>
      IsUser(procs, todo[i].p) && procs[todo[i].p].Alive()
  }

  ghost predicate DevicesOk(procs: seq<Proc>, todo: seq<Task>, devices: seq<Device>) {
    forall d :: 0 <= d < |devices| ==>
      && RefOk(procs, todo, devices[d].holder, 0)
      && (devices[d].listening ==> devices[d].holder != NONE_PROC_ID)
  }

  ghost predicate ListenersOk(procs: seq<Proc>, todo: seq<Task>, listeners: seq<Listener>) {
    forall i :: 0 <= i < |listeners| ==>
      && RefOk(procs, todo, listeners[i].procId, 1)
      && (listeners[i].procId == NONE_PROC_ID ==> listeners[i].path == "")
  }

  ghost predicate BindingsOk(procs: seq<Proc>, todo: seq<Task>, bindings: seq<Binding>) {
    forall i :: 0 <= i < |bindings| ==>
      && RefOk(procs, todo, bindings[i].sender, 1)
      && RefOk(procs, todo, bindings[i].receiver, 1)
      && (bindings[i].sender == NONE_PROC_ID <==> bindings[i].receiver == NONE_PROC_ID)
  }

  ghost predicate LoopOk(f: Fifo<Message>) {
    && |f| <= DISPATCH_QUEUE_SIZE
    && forall i :: 0 <= i < |f| ==> f[i].Filled? && !f[i].dataHandled && (f[i].handled ==> i == 0)
  }

  ghost predicate MemoryOk(procs: seq<Proc>, todo: seq<Task>, loops: seq<Fifo<Message>>, mapped: seq<set<int>>) {
    && |loops| == |mapped| == |procs|
    && (forall p :: 0 <= p < |procs| ==> LoopOk(loops[p]))
    && (forall p :: 0 <= p < |procs| && loops[p] != [] ==> Known(procs, todo, p, 2))
    && (forall p :: 0 <= p < |procs| && mapped[p] != {} ==> Known(procs, todo, p, 3))
  }

  /** Before the queue runs there is nobody to queue anything. */
  ghost predicate StartupOk(s: State) {
    !s.queueRunning ==>
      && s.todo == [] && s.head.None? && s.kernel.Running? && !s.resuming
      && s.elapsed >= GRANULARITY_MS
      && forall d :: 0 <= d < |s.devices| ==> !s.devices[d].listening
  }

  // ---------------------------------------------------------------- the history

  /** Entry j is a grant between two parties that have not been born again since. */
  ghost predicate GrantsAt(log: seq<Event>, j: nat, granter: int, grantee: int)
    requires j < |log|
  {
    log[j].Granted? && log[j].granter == granter && log[j].grantee == grantee && NotSpawnedSince(log, j, granter, grantee)
  }

  ghost predicate GrantLive(log: seq<Event>, granter: int, grantee: int, permissions: bv32) {
    exists j :: 0 <= j < |log| && GrantsAt(log, j, granter, grantee) && log[j].permissions == permissions
  }

  ghost predicate NotSpawnedSince(log: seq<Event>, j: nat, p: int, q: int) {
    forall k :: j < k < |log| ==> log[k] != Spawned(p) && log[k] != Spawned(q)
  }

  ghost predicate BindingsGranted(bindings: seq<Binding>, log: seq<Event>) {
    forall i :: 0 <= i < |bindings| && bindings[i].sender != NONE_PROC_ID ==>
      GrantLive(log, bindings[i].receiver, bindings[i].sender, bindings[i].permissions)
  }

  /** Every bound message was covered by a grant of its target when it was delivered. */
  ghost predicate MessagesGranted(log: seq<Event>) {
    forall i :: 0 <= i < |log| && log[i].BoundMessage? ==> Covered(log[..i], log[i])
  }

  ghost predicate Covered(before: seq<Event>, m: Event)
    requires m.BoundMessage?
  {
    exists j :: 0 <= j < |before| && GrantsAt(before, j, m.target, m.source) && Includes(before[j].permissions, m.mask)
  }

  function LastSwitched(log: seq<Event>): int {
    if log == [] then KERNEL_PROC_ID
    else if log[|log| - 1].Switched? then log[|log| - 1].p
    else LastSwitched(log[..|log| - 1])
  }

  ghost predicate HistoryOk(s: State) {
    && BindingsGranted(s.bindings, s.log)
    && MessagesGranted(s.log)
    && LastSwitched(s.log) == (if s.resuming then s.next else s.last)
  }

  // ---------------------------------------------------------------- all of it

  /** The tables that do not depend on who waits for a reply. */
  ghost predicate OthersOk(s: State) {
    && DrainOk(s.procs, s.todo)
    && EventsOk(s.procs, s.loops)
    && TasksOk(s.procs, s.todo)
    && DevicesOk(s.procs, s.todo, s.devices)
    && ListenersOk(s.procs, s.todo, s.listeners)
    && BindingsOk(s.procs, s.todo, s.bindings)
    && MemoryOk(s.procs, s.todo, s.loops, s.mapped)
  }

  ghost predicate TablesOk(s: State) {
    && OthersOk(s)
    && ProcsOk(s.procs)
    && TokensOk(s.procs, s.todo, s.replies)
    && WaitersOk(s.procs, s.todo, s.replies)
  }

  ghost predicate Inv(s: State) {
    && |s.procs| <= |s.replies|
    && ModeOk(s)
    && SchedOk(s)
    && StartupOk(s)
    && TablesOk(s)
    && HistoryOk(s)
  }
}
