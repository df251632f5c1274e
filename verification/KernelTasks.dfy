/** Every deferred task keeps the invariant, and does what its place in the queue promises. */
module KernelTasks {
  import opened Outcomes
  import opened RunLoopSpec
  import opened KernelState
  import opened KernelInvariant
  import opened KernelSteps
  import opened KernelCalls

  /** The kernel runs the task at the front of the queue. */
  ghost predicate Serving(s: State) {
    && s.kernel.Running? && s.isr == 0 && s.queueRunning && !s.resuming && s.head.None? && s.todo != []
  }

  // ---------------------------------------------------------------- clean slots

  /**
    * No table of the kernel names process p, and its own run loop and memory are empty. The run loops of other processes
    * may still hold messages that name it as their sender.
    */
  ghost predicate TablesWithout(s: State, p: int) {
    && (forall d :: 0 <= d < |s.devices| ==> s.devices[d].holder != p)
    && (forall i :: 0 <= i < |s.listeners| ==> s.listeners[i].procId != p)
    && (forall i :: 0 <= i < |s.replies| ==> s.replies[i].sender != p && s.replies[i].handler != p)
    && (forall i :: 0 <= i < |s.bindings| ==> s.bindings[i].sender != p && s.bindings[i].receiver != p)
    && (forall i :: 0 <= i < |s.todo| && s.todo[i] != Evaluate ==> s.todo[i].p != p)
    && (0 <= p < |s.loops| ==> s.loops[p] == [])
    && (0 <= p < |s.mapped| ==> s.mapped[p] == {})
  }

  lemma DeadSlotIsClean(s: State, p: int)
    requires Inv(s)
    requires IsUser(s.procs, p) && !s.procs[p].Alive() && !s.procs[p].state.Finished?
    ensures TablesWithout(s, p)
    ensures !s.procs[p].Locked()
  {
  }

  lemma FreeSlotIsLowest(procs: seq<Proc>, i: nat)
    requires i <= |procs|
    ensures var j := FreeSlot(procs, i);
            && i <= j <= |procs| && (j < |procs| ==> procs[j].state.Empty?)
            && forall k :: i <= k < j ==> !procs[k].state.Empty?
    decreases |procs| - i
  {
  }

  /** A slot is handed out only when no table names its former owner. */
  lemma SpawnedSlotIsClean(s: State)
    requires Inv(s)
    ensures var (s', p) := Spawn(s);
            match p
            case None => s' == s && forall k :: 0 <= k < |s.procs| ==> !s.procs[k].state.Empty?
            case Some(q) => IsUser(s.procs, q) && s.procs[q].state.Empty? && TablesWithout(s', q) && !s'.procs[q].Locked()
  {
    FreeSlotIsLowest(s.procs, 0);
    var q := FreeSlot(s.procs, 0);
    if q < |s.procs| {
      DeadSlotIsClean(s, q);
    }
  }

  // ---------------------------------------------------------------- starting

  lemma SpawnKeepsHistory(s: State, p: int)
    requires Inv(s) && IsUser(s.procs, p) && TablesWithout(s, p)
    ensures HistoryOk(s.(log := s.log + [Spawned(p)]))
  {
    hide TablesOk, StartupOk, SchedOk, ModeOk;
    MessagesStayGranted(s.log, Spawned(p));
    LastSwitchedAfter(s.log, Spawned(p));
    forall i | 0 <= i < |s.bindings| && s.bindings[i].sender != NONE_PROC_ID
      ensures GrantLive(s.log + [Spawned(p)], s.bindings[i].receiver, s.bindings[i].sender, s.bindings[i].permissions)
    {
      GrantStays(s.log, Spawned(p), s.bindings[i].receiver, s.bindings[i].sender, s.bindings[i].permissions);
    }
  }

  lemma SelectionIsReady(procs: seq<Proc>, last: int, i: nat)
    requires i <= |procs| && -1 <= last
    ensures var r := SelectFrom(procs, last, i);
            && (r == KERNEL_PROC_ID || (0 <= r < |procs| && procs[r].state.Ready?))
            && (r == KERNEL_PROC_ID ==> forall k :: i <= k < |procs| ==> !procs[Candidate(|procs|, last, k)].state.Ready?)
    decreases |procs| - i
  {
  }

  /** Every process is a candidate, so none is selected only if none is ready. */
  lemma EveryoneIsCandidate(n: nat, last: int, p: int) returns (k: nat)
    requires 0 <= p < n && -1 <= last < n
    ensures k < n && Candidate(n, last, k) == p
  {
    if p > last {
      k := p - last - 1;
      SmallMod(p, n);
    } else {
      k := p - last - 1 + n;
      assert last + k + 1 == p + n;
      SmallMod(p, n);
    }
  }

  lemma SmallMod(p: int, n: nat)
    requires 0 <= p < n
    ensures p % n == p && (p + n) % n == p
  {
  }

  lemma SelectionIsCurrent(procs: seq<Proc>, last: int)
    requires -1 <= last < |procs| || (last == -1 && procs == [])
    ensures var r := ProcSelect(procs, last);
            if r < 0 then r == KERNEL_PROC_ID && forall p :: 0 <= p < |procs| ==> !procs[p].state.Ready?
            else r < |procs| && procs[r].state.Ready?
  {
    SelectionIsReady(procs, last, 0);
    if ProcSelect(procs, last) < 0 {
      forall p | 0 <= p < |procs|
        ensures !procs[p].state.Ready?
      {
        var k := EveryoneIsCandidate(|procs|, last, p);
      }
    }
  }

  /** A clean slot becomes a ready process with its pages. */
  lemma HatchedKeepsTables(s: State, p: int, pages: set<int>)
    requires TablesOk(s) && IsUser(s.procs, p) && !s.procs[p].Alive() && !s.procs[p].state.Finished?
    requires |s.mapped| == |s.procs|
    ensures TablesOk(s.(procs := s.procs[p := Proc(Ready, false, false)], mapped := s.mapped[p := pages]))
  {
  }

  lemma ClearedKeepsTables(s: State, p: int)
    requires TablesOk(s) && IsUser(s.procs, p) && !s.procs[p].Alive() && !s.procs[p].state.Finished?
    ensures |s.mapped| == |s.procs|
    ensures TablesOk(s.(procs := s.procs[p := EMPTY_PROC], mapped := s.mapped[p := {}]))
  {
  }

  lemma StartKeeps(s: State, image: Image)
    requires Inv(s) && s.kernel.Running? && !s.resuming
    ensures match StartImage(s, image)
            case Ok(s') => Inv(s') && s'.todo == s.todo && s'.head == s.head && s'.kernel == s.kernel
            case Halt(why) => Excused(why)
  {
    SpawnedSlotIsClean(s);
    FreeSlotIsLowest(s.procs, 0);
    var p := FreeSlot(s.procs, 0);
    if p < |s.procs| && !image.NotLoaded? && !image.Faulty? {
      DeadSlotIsClean(s, p);
      SpawnKeepsHistory(s, p);
      ClearedKeepsTables(s, p);
      if image.Loaded? {
        HatchedKeepsTables(s, p, image.pages);
        SelectionIsCurrent(s.procs[p := Proc(Ready, false, false)], s.last);
      }
      StartedKeeps(s, p, image);
    }
  }

  lemma StartedKeeps(s: State, p: int, image: Image)
    requires Inv(s) && s.kernel.Running? && !s.resuming
    requires p == FreeSlot(s.procs, 0) && IsUser(s.procs, p) && s.procs[p] == EMPTY_PROC
    requires |s.mapped| == |s.procs| && s.mapped[p] == {}
    requires HistoryOk(s.(log := s.log + [Spawned(p)]))
    requires TablesOk(s.(procs := s.procs[p := EMPTY_PROC], mapped := s.mapped[p := {}]))
    requires image.NoStack? || image.Loaded?
    requires image.Loaded? ==>
      && TablesOk(s.(procs := s.procs[p := Proc(Ready, false, false)], mapped := s.mapped[p := image.pages]))
      && var procs := s.procs[p := Proc(Ready, false, false)]; var r := ProcSelect(procs, s.last);
         if r < 0 then r == KERNEL_PROC_ID && forall q :: 0 <= q < |procs| ==> !procs[q].state.Ready?
         else r < |procs| && procs[r].state.Ready?
    ensures match StartImage(s, image)
            case Ok(s') => Inv(s') && s'.todo == s.todo && s'.head == s.head && s'.kernel == s.kernel
            case Halt(why) => Excused(why)
  {
    hide TablesOk, HistoryOk;
    var log := s.log + [Spawned(p)];
    if image.NoStack? {
      assert s.procs[p := s.procs[p].(state := New)][p := EMPTY_PROC] == s.procs[p := EMPTY_PROC];
      assert s.mapped[p := image.pages][p := {}] == s.mapped[p := {}];
      var s' := s.(procs := s.procs[p := EMPTY_PROC], mapped := s.mapped[p := {}], log := log, mail := s.mail + [Born(p)]);
      assert StartImage(s, image) == Ok(s');
      SameTables(s.(procs := s.procs[p := EMPTY_PROC], mapped := s.mapped[p := {}]), s');
      SameHistory(s.(log := log), s');
    } else if image.entry != 0 && image.heap != 0 {
      var procs := s.procs[p := Proc(Ready, false, false)];
      assert s.procs[p := s.procs[p].(state := New)][p := Proc(Ready, false, false)] == procs;
      var s1 := s.(procs := procs, mapped := s.mapped[p := image.pages], log := log, mail := s.mail + [Born(p)]);
      var s' := if s.next < 0 then s1.(next := ProcSelect(procs, s.last)) else s1;
      assert StartImage(s, image) == Ok(s');
      SameTables(s.(procs := procs, mapped := s.mapped[p := image.pages]), s');
      SameHistory(s.(log := log), s');
    }
  }

  // ---------------------------------------------------------------- cleaning up after a finished process

  /** The cleanup of process p has reached its k-th task. */
  ghost predicate Draining(s: State, p: int, k: nat)
    requires k < 4
  {
    && Inv(s) && Serving(s)
    && s.todo[0] == CleanupTask(p, k)
  }

  lemma DrainingIsFinished(s: State, p: int, k: nat)
    requires k < 4 && Draining(s, p, k)
    ensures IsUser(s.procs, p) && s.procs[p].state.Finished? && !s.procs[p].Locked()
    ensures Stage(s.todo) == k
    ensures |s.loops| == |s.mapped| == |s.procs|
    ensures forall q :: 0 <= q < |s.procs| && s.procs[q].state.Finished? ==> q == p
  {
  }

  /** What cleaning leaves as it was. */
  ghost predicate Tidy(s: State, s': State) {
    && s' == s.(procs := s'.procs, todo := s'.todo, elapsed := s'.elapsed, loops := s'.loops, mail := s'.mail,
                replies := s'.replies, bindings := s'.bindings)
    && |s'.procs| == |s.procs| && |s'.replies| == |s.replies| && |s'.bindings| == |s.bindings|
    && |s'.todo| > 0 && |s.todo| > 0 && s'.todo[0] == s.todo[0]
    && forall q :: 0 <= q < |s.procs| ==> (s'.procs[q].Alive() <==> s.procs[q].Alive())
  }

  ghost predicate TokensWithout(replies: seq<Reply>, p: int, n: nat) {
    forall k :: 0 <= k < |replies| && k < n ==> replies[k].sender != p && replies[k].handler != p
  }

  ghost predicate BindingsWithout(bindings: seq<Binding>, p: int, n: nat) {
    forall k :: 0 <= k < |bindings| && k < n ==> bindings[k].sender != p && bindings[k].receiver != p
  }

  /** The handler is gone: every message it still had to answer is failed, and its sender goes on. */
  lemma FailReplyKeeps(s: State, p: int, i: nat)
    requires Draining(s, p, 1) && i < |s.replies| && s.replies[i].handler == p
    ensures match FailReply(s, i)
            case Ok(s') =>
              && Draining(s', p, 1) && Tidy(s, s')
              && s'.replies == s.replies[i := NO_REPLY] && s'.bindings == s.bindings && s'.loops == s.loops
            case Halt(why) => why == QueueFull
  {
    hide OthersOk, HistoryOk, StartupOk, SchedOk;
    DrainingIsFinished(s, p, 1);
    SenderOfToken(s, i);
    ReleaseTokenKeeps(s, i);
    ReleaseIsTidy(s, i);
  }

  lemma ReleaseIsTidy(s: State, i: nat)
    requires Inv(s) && Serving(s) && i < |s.replies| && s.replies[i].sender != NONE_PROC_ID
    ensures ReleaseToken(s, i).Ok? ==> Tidy(s, ReleaseToken(s, i).value) && Serving(ReleaseToken(s, i).value)
    ensures ReleaseToken(s, i).Ok? ==> ReleaseToken(s, i).value.bindings == s.bindings && ReleaseToken(s, i).value.loops == s.loops
  {
    hide OthersOk, HistoryOk, StartupOk, SchedOk;
  }

  lemma CleanTokensKeeps(s: State, p: int, i: nat)
    requires Draining(s, p, 1) && i <= |s.replies|
    requires TokensWithout(s.replies, p, i)
    ensures match CleanTokens(s, p, i)
            case Ok(s') =>
              && Draining(s', p, 1) && Tidy(s, s') && TokensWithout(s'.replies, p, |s'.replies|)
              && s'.bindings == s.bindings && s'.loops == s.loops
            case Halt(why) => why == QueueFull
    decreases |s.replies| - i
  {
    hide Inv, Serving;
    QueueIsNotEmpty(s, p);
    if i < |s.replies| {
      TokenOfFinished(s, p, i);
      if s.replies[i].handler == p {
        FailReplyKeeps(s, p, i);
        if FailReply(s, i).Ok? {
          CleanTokensKeeps(FailReply(s, i).value, p, i + 1);
        }
      } else {
        CleanTokensKeeps(s, p, i + 1);
      }
    }
  }

  /** A process that ends owns no token itself: its own branch of the cleanup loop is never taken. */
  lemma TokenOfFinished(s: State, p: int, i: nat)
    requires Draining(s, p, 1) && i < |s.replies|
    ensures s.replies[i].sender != p && |s.todo| > 0
  {
  }

  /** How many notices about bindings that p sends over, from the i-th on, go to q. */
  function Notices(bindings: seq<Binding>, p: int, i: nat, q: int): nat
    requires i <= |bindings|
    decreases |bindings| - i
  {
    if i == |bindings| then 0
    else Notices(bindings, p, i + 1, q) + if bindings[i].sender == p && OtherParty(bindings[i], p) == q then 1 else 0
  }

  /** Every process that listens has room for the notices it will get. */
  ghost predicate NoticesFit(s: State, p: int, i: nat)
    requires i <= |s.bindings|
  {
    forall q :: 0 <= q < |s.loops| && Listens(s.listeners, q) ==>
      |s.loops[q]| + Notices(s.bindings, p, i, q) <= DISPATCH_QUEUE_SIZE
  }

  /** The cleanup goes through, or the queue is full, or somebody has not the room for all the notices. */
  lemma CleanBindingsKeeps(s: State, p: int, i: nat)
    requires Draining(s, p, 1) && i <= |s.bindings| && ListenersAlive(s)
    requires BindingsWithout(s.bindings, p, i)
    ensures match CleanBindings(s, p, i)
            case Ok(s') =>
              && Draining(s', p, 1) && Tidy(s, s')
              && BindingsWithout(s'.bindings, p, |s'.bindings|) && s'.replies == s.replies
              && NoticesFit(s, p, i)
            case Halt(why) => why == QueueFull || (why == NotificationRefused && !NoticesFit(s, p, i))
    decreases |s.bindings| - i
  {
    hide Inv, Serving, DestroyBindingAt, NoticesFit, Listens, Refuses, Notified;
    QueueIsNotEmpty(s, p);
    if i == |s.bindings| {
      RoomAtEnd(s, p);
    } else {
      ClearBindingDrains(s, p, i);
      if s.bindings[i].sender == p {
        DestroyBindingDrains(s, p, i);
        if DestroyBindingAt(s, i, p).Ok? {
          var s1 := DestroyBindingAt(s, i, p).value;
          CleanBindingsKeeps(s1, p, i + 1);
          NoticeTakesRoom(s, s1, p, i);
        } else if DestroyBindingAt(s, i, p).reason == NotificationRefused {
          NoRoomForNotice(s, p, i);
        }
      } else {
        var s1 := if s.bindings[i].receiver == p then s.(bindings := s.bindings[i := NO_BINDING]) else s;
        CleanBindingsKeeps(s1, p, i + 1);
        NoNotice(s, s1, p, i);
      }
    }
  }

  lemma RoomAtEnd(s: State, p: int)
    requires Draining(s, p, 1)
    ensures NoticesFit(s, p, |s.bindings|)
  {
    hide HistoryOk;
    LoopsAreOk(s);
  }

  /** Later bindings are not touched. */
  lemma {:induction false} LaterNotices(a: seq<Binding>, b: seq<Binding>, p: int, i: nat, q: int)
    requires |a| == |b| && i <= |a| && forall k :: i <= k < |a| ==> a[k] == b[k]
    ensures Notices(a, p, i, q) == Notices(b, p, i, q)
    decreases |a| - i
  {
    if i < |a| {
      LaterNotices(a, b, p, i + 1, q);
    }
  }

  lemma NoNotice(s: State, s1: State, p: int, i: nat)
    requires i < |s.bindings| && s.bindings[i].sender != p
    requires s1 == s || s1 == s.(bindings := s.bindings[i := NO_BINDING])
    ensures NoticesFit(s, p, i) <==> NoticesFit(s1, p, i + 1)
  {
    hide Listens;
    forall q
      ensures Notices(s.bindings, p, i, q) == Notices(s1.bindings, p, i + 1, q)
    {
      LaterNotices(s.bindings, s1.bindings, p, i + 1, q);
    }
  }

  lemma NoticeTakesRoom(s: State, s1: State, p: int, i: nat)
    requires i < |s.bindings| && s.bindings[i].sender == p && s1.bindings == s.bindings[i := NO_BINDING]
    requires s1.listeners == s.listeners && Notified(s, s1, OtherParty(s.bindings[i], p))
    ensures NoticesFit(s, p, i) <==> NoticesFit(s1, p, i + 1)
  {
    hide Listens;
    forall q | 0 <= q < |s.loops| && Listens(s.listeners, q)
      ensures |s.loops[q]| + Notices(s.bindings, p, i, q) == |s1.loops[q]| + Notices(s1.bindings, p, i + 1, q)
    {
      LaterNotices(s.bindings, s1.bindings, p, i + 1, q);
    }
  }

  lemma NoRoomForNotice(s: State, p: int, i: nat)
    requires i < |s.bindings| && s.bindings[i].sender == p && Refuses(s, OtherParty(s.bindings[i], p))
    ensures !NoticesFit(s, p, i)
  {
    hide Listens;
    assert Notices(s.bindings, p, i, OtherParty(s.bindings[i], p)) >= 1;
  }

  lemma QueueIsNotEmpty(s: State, p: int)
    requires Draining(s, p, 1)
    ensures |s.todo| > 0 && IsUser(s.procs, p)
  {
    DrainingIsFinished(s, p, 1);
  }

  lemma ClearBindingDrains(s: State, p: int, i: nat)
    requires Draining(s, p, 1) && i < |s.bindings| && IsUser(s.procs, p)
    ensures Draining(s.(bindings := s.bindings[i := NO_BINDING]), p, 1)
  {
    hide Inv;
    ClearBindingKeeps(s, i);
  }

  lemma DestroyBindingDrains(s: State, p: int, i: nat)
    requires Draining(s, p, 1) && i < |s.bindings| && ListenersAlive(s)
    ensures match DestroyBindingAt(s, i, p)
            case Ok(s') =>
              && Draining(s', p, 1) && Tidy(s, s')
              && s'.bindings == s.bindings[i := NO_BINDING] && s'.replies == s.replies && ListenersAlive(s')
              && Notified(s, s', OtherParty(s.bindings[i], p))
            case Halt(why) => why == QueueFull || why == NotificationRefused
    ensures DestroyBindingAt(s, i, p) == Halt(NotificationRefused) <==> Refuses(s, OtherParty(s.bindings[i], p))
  {
    hide Inv, DestroyBindingAt, Notified, Refuses;
    DestroyBindingAtKeeps(s, i, p);
  }

  lemma ListenersCleared(s: State, p: int)
    requires Draining(s, p, 1)
    ensures var s' := s.(listeners := WithoutListenersOf(s.listeners, p));
            Draining(s', p, 1) && ListenersAlive(s') && forall i :: 0 <= i < |s'.listeners| ==> s'.listeners[i].procId != p
  {
    DrainingIsFinished(s, p, 1);
  }

  lemma TidyKeepsListeners(s: State, s': State)
    requires Tidy(s, s') && ListenersAlive(s)
    ensures ListenersAlive(s')
  {
  }

  /** The notices of an IPC cleanup fit; the process itself does not listen any more. */
  ghost predicate CleanupNoticesFit(s: State, p: int) {
    NoticesFit(s.(listeners := WithoutListenersOf(s.listeners, p)), p, 0)
  }

  /**
    * After the IPC cleanup no listener, token or binding names the process. It halts for a refused notice exactly if some
    * process that listens has fewer free places in its run loop than notices to come, unless the queue fills first.
    */
  lemma CleanIpcKeeps(s: State, p: int)
    requires Draining(s, p, 1)
    ensures match CleanIpc(s, p)
            case Ok(s') =>
              && Draining(s', p, 1)
              && (forall i :: 0 <= i < |s'.listeners| ==> s'.listeners[i].procId != p)
              && TokensWithout(s'.replies, p, |s'.replies|)
              && BindingsWithout(s'.bindings, p, |s'.bindings|)
              && CleanupNoticesFit(s, p)
            case Halt(why) => why == QueueFull || (why == NotificationRefused && !CleanupNoticesFit(s, p))
  {
    hide Inv, Serving, CleanTokens, CleanBindings, ListenersAlive, Listens, Notices;
    ListenersCleared(s, p);
    var s0 := s.(listeners := WithoutListenersOf(s.listeners, p));
    CleanTokensKeeps(s0, p, 0);
    if CleanTokens(s0, p, 0).Ok? {
      var s1 := CleanTokens(s0, p, 0).value;
      TidyKeepsListeners(s0, s1);
      CleanBindingsKeeps(s1, p, 0);
    }
  }

  // ---------------------------------------------------------------- leaving the queue

  /** What a task must have achieved before it leaves the queue; the last cleanup task is treated on its own. */
  ghost predicate Done(s: State, t: Task) {
    match t
    case Evaluate =>
      if s.next < 0 then forall p :: 0 <= p < |s.procs| ==> !s.procs[p].state.Ready?
      else s.next < |s.procs| && s.procs[s.next].state.Ready?
    case UnlockIfAble(p) => IsUser(s.procs, p) && (s.procs[p].ipc ==> OwnsToken(s.replies, p))
    case WaitForEvent(_) => true
    case Start(_) => true
    case DevCleanup(p) => forall d :: 0 <= d < |s.devices| ==> s.devices[d].holder != p
    case IpcCleanup(p) =>
      && (forall i :: 0 <= i < |s.listeners| ==> s.listeners[i].procId != p)
      && TokensWithout(s.replies, p, |s.replies|)
      && BindingsWithout(s.bindings, p, |s.bindings|)
    case RunLoopCleanup(p) => 0 <= p < |s.loops| && s.loops[p] == []
    case ProcCleanup(p) => false
  }

  lemma RetireKeepsDrain(s: State)
    requires OthersOk(s) && s.todo != [] && !s.todo[0].ProcCleanup?
    ensures DrainOk(s.procs, s.todo[1..]) && TasksOk(s.procs, s.todo[1..])
    ensures Stage(s.todo[1..]) == if Stage(s.todo) < 4 then Stage(s.todo) + 1 else 4
  {
    var rest := s.todo[1..];
    assert forall i :: 0 <= i < |rest| ==> rest[i] == s.todo[i + 1];
  }

  lemma RetireKeepsOthers(s: State)
    requires OthersOk(s) && s.todo != [] && Done(s, s.todo[0])
    ensures OthersOk(Retire(s, s.todo[0]))
  {
    RetireKeepsDrain(s);
    StageOwner(s);
  }

  /** The process being cleaned up is the only one that is not alive and may still be referred to. */
  lemma StageOwner(s: State)
    requires OthersOk(s) && s.todo != []
    ensures Stage(s.todo) < 4 ==> IsCleanup(s.todo[0]) && s.todo[0] == CleanupTask(s.todo[0].p, Stage(s.todo))
    ensures forall q :: 0 <= q < |s.procs| && s.procs[q].state.Finished? ==> Stage(s.todo) < 4 && s.todo[0].p == q
  {
  }

  lemma RetireKeepsTables(s: State)
    requires TablesOk(s) && s.todo != [] && Done(s, s.todo[0])
    ensures TablesOk(Retire(s, s.todo[0]))
  {
    hide OthersOk;
    RetireKeepsOthers(s);
    RetireKeepsDrain(s);
    StageOwner(s);
    RestOfQueue(s.todo);
  }

  lemma RestOfQueue(todo: seq<Task>)
    requires todo != []
    ensures forall t :: t in todo && t != todo[0] ==> t in todo[1..]
  {
    assert todo == [todo[0]] + todo[1..];
  }

  lemma RetireKeeps(s: State)
    requires Inv(s) && Serving(s) && Done(s, s.todo[0])
    ensures Inv(Retire(s, s.todo[0]))
  {
    hide TablesOk, HistoryOk;
    RetireKeepsTables(s);
    RestOfQueue(s.todo);
    SameHistory(s, Retire(s, s.todo[0]));
  }

  // ---------------------------------------------------------------- one task

  lemma EvaluateKeeps(s: State)
    requires Inv(s) && Serving(s)
    ensures var s' := s.(next := ProcSelect(s.procs, s.last)); Inv(s') && Serving(s') && Done(s', Evaluate)
  {
    hide TablesOk, HistoryOk;
    var s' := s.(next := ProcSelect(s.procs, s.last));
    SelectionIsCurrent(s.procs, s.last);
    SameTables(s, s');
    SameHistory(s, s');
  }

  lemma UnlockIfAbleKeeps(s: State, p: int)
    requires Inv(s) && Serving(s) && s.todo[0] == UnlockIfAble(p)
    ensures match UnlockProcIfAble(s, p)
            case Ok(s') => Inv(s') && Serving(s') && s'.todo[0] == s.todo[0] && Done(s', s.todo[0])
            case Halt(why) => why == QueueFull
  {
    hide OthersOk, HistoryOk, StartupOk, SchedOk, ModeOk;
    QueuedIsAlive(s);
    if !OwnsToken(s.replies, p) {
      UnlockKeeps(s, p, IpcLock);
    }
  }

  lemma QueuedIsAlive(s: State)
    requires Inv(s) && Serving(s)
    requires s.todo[0].UnlockIfAble? || s.todo[0].WaitForEvent?
    ensures IsUser(s.procs, s.todo[0].p) && s.procs[s.todo[0].p].Alive()
    ensures |s.loops| == |s.procs|
  {
  }

  lemma WaitForEventKeeps(s: State, p: int)
    requires Inv(s) && Serving(s) && s.todo[0] == WaitForEvent(p)
    ensures match WaitForEventIfIdle(s, p)
            case Ok(s') => Inv(s') && Serving(s') && s'.todo[0] == s.todo[0] && Done(s', s.todo[0])
            case Halt(why) => why == QueueFull
  {
    hide TablesOk, HistoryOk, StartupOk, SchedOk, ModeOk;
    QueuedIsAlive(s);
    if IsEmpty(s.loops[p]) {
      LockForEventKeeps(s, p);
    }
  }

  lemma CleanDevicesKeeps(s: State, p: int)
    requires Draining(s, p, 0)
    ensures var s' := CleanDevices(s, p); Inv(s') && Serving(s') && s'.todo[0] == s.todo[0] && Done(s', s.todo[0])
  {
  }

  lemma OwnerIsFinished(s: State, p: int)
    requires Inv(s) && s.todo != [] && s.todo[0] == RunLoopCleanup(p)
    ensures IsUser(s.procs, p) && !s.procs[p].Alive()
  {
    hide HistoryOk;
  }

  lemma CleanRunLoopKeeps(s: State, p: int)
    requires Draining(s, p, 2)
    ensures match CleanRunLoop(s, p)
            case Ok(s') => Inv(s') && Serving(s') && s'.todo[0] == s.todo[0] && Done(s', s.todo[0])
            case Halt(_) => false
  {
    DrainingIsFinished(s, p, 2);
  }

  /** The last cleanup task empties the slot, and no table names the process any more. */
  lemma CleanupProcKeeps(s: State, p: int)
    requires Draining(s, p, 3)
    ensures match CleanupProc(s, p)
            case Ok(s') => Inv(Retire(s', s.todo[0])) && s'.procs[p] == EMPTY_PROC && TablesWithout(Retire(s', s.todo[0]), p)
            case Halt(_) => false
  {
    hide TablesOk, HistoryOk;
    DrainingIsFinished(s, p, 3);
    EmptiedKeepsTables(s, p);
    var s' := Retire(CleanupProc(s, p).value, s.todo[0]);
    RestOfQueue(s.todo);
    SameHistory(s, s');
    assert Inv(s');
    DeadSlotIsClean(s', p);
  }

  lemma EmptiedKeepsTables(s: State, p: int)
    requires Draining(s, p, 3)
    ensures CleanupProc(s, p).Ok?
    ensures TablesOk(Retire(CleanupProc(s, p).value, s.todo[0]))
  {
    hide OthersOk, HistoryOk, ModeOk, SchedOk, StartupOk;
    DrainingIsFinished(s, p, 3);
    EmptiedKeepsDrain(s, p);
    EmptiedKeepsOthers(s, p);
    RestOfQueue(s.todo);
  }

  lemma EmptiedKeepsOthers(s: State, p: int)
    requires Draining(s, p, 3)
    ensures CleanupProc(s, p).Ok?
    ensures OthersOk(Retire(CleanupProc(s, p).value, s.todo[0]))
  {
    hide TokensOk, WaitersOk, HistoryOk, ModeOk, SchedOk, StartupOk;
    DrainingIsFinished(s, p, 3);
    EmptiedKeepsDrain(s, p);
    RestOfQueue(s.todo);
  }

  lemma EmptiedKeepsDrain(s: State, p: int)
    requires Draining(s, p, 3)
    ensures Stage(s.todo[1..]) == 4
    ensures forall i :: 0 <= i < |s.todo[1..]| ==> !IsCleanup(s.todo[1..][i])
    ensures TasksOk(s.procs, s.todo[1..])
    ensures forall q :: 0 <= q < |s.procs| && s.procs[q].state.Finished? ==> q == p
  {
    var rest := s.todo[1..];
    assert forall i :: 0 <= i < |rest| ==> rest[i] == s.todo[i + 1];
  }

  /** Running the head of the queue. */
  lemma RunHeadKeeps(s: State, image: Image)
    requires Inv(s) && Serving(s)
    ensures match Step(s, RunHead(image)) case Ok(s') => Inv(s') case Halt(why) => Excused(why)
  {
    hide Inv, Done, UnlockProcIfAble, WaitForEventIfIdle, StartImage, CleanIpc, CleanRunLoop, CleanupProc;
    var t := s.todo[0];
    match t
    case Evaluate =>
      EvaluateKeeps(s);
      RetireKeeps(s.(next := ProcSelect(s.procs, s.last)));
    case UnlockIfAble(p) =>
      UnlockIfAbleKeeps(s, p);
      if UnlockProcIfAble(s, p).Ok? { RetireKeeps(UnlockProcIfAble(s, p).value); }
    case WaitForEvent(p) =>
      WaitForEventKeeps(s, p);
      if WaitForEventIfIdle(s, p).Ok? { RetireKeeps(WaitForEventIfIdle(s, p).value); }
    case Start(p) =>
      StartTaskKeeps(s, image);
      if StartImage(s, image).Ok? { RetireKeeps(StartImage(s, image).value); }
    case DevCleanup(p) =>
      CleanDevicesKeeps(s, p);
      RetireKeeps(CleanDevices(s, p));
    case IpcCleanup(p) =>
      IpcCleanupKeeps(s, p);
      if CleanIpc(s, p).Ok? { RetireKeeps(CleanIpc(s, p).value); }
    case RunLoopCleanup(p) =>
      CleanRunLoopKeeps(s, p);
      RetireKeeps(CleanRunLoop(s, p).value);
    case ProcCleanup(p) =>
      CleanupProcKeeps(s, p);
  }

  lemma StartTaskKeeps(s: State, image: Image)
    requires Inv(s) && Serving(s) && s.todo[0].Start?
    ensures match StartImage(s, image)
            case Ok(s') => Inv(s') && Serving(s') && s'.todo[0] == s.todo[0] && Done(s', s.todo[0])
            case Halt(why) => Excused(why)
  {
    hide Inv;
    StartKeeps(s, image);
  }

  lemma IpcCleanupKeeps(s: State, p: int)
    requires Draining(s, p, 1)
    ensures match CleanIpc(s, p)
            case Ok(s') => Inv(s') && Serving(s') && s'.todo[0] == s.todo[0] && Done(s', s.todo[0])
            case Halt(why) => Excused(why)
  {
    hide Inv, CleanIpc;
    CleanIpcKeeps(s, p);
  }
}
