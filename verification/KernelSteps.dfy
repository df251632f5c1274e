/** Each elementary change of the kernel's tables keeps the invariant. */
module KernelSteps {
  import opened Counting
  import opened Outcomes
  import opened RunLoopSpec
  import opened KernelState
  import opened KernelInvariant

  // ---------------------------------------------------------------- queueing

  /** Neither the tables nor the history depend on the clock, the selection or who runs. */
  lemma SameTables(s: State, s': State)
    requires TablesOk(s)
    requires s' == s.(log := s'.log, mail := s'.mail, next := s'.next, last := s'.last, elapsed := s'.elapsed, head := s'.head, isr := s'.isr,
                      kernel := s'.kernel, current := s'.current, resuming := s'.resuming, queueRunning := s'.queueRunning)
    ensures TablesOk(s')
  {
  }

  lemma SameHistory(s: State, s': State)
    requires HistoryOk(s)
    requires s'.log == s.log && s'.bindings == s.bindings && s'.last == s.last && s'.resuming == s.resuming
    requires s.resuming ==> s'.next == s.next
    ensures HistoryOk(s')
  {
  }

  predicate Queueable(procs: seq<Proc>, t: Task) {
    && !IsCleanup(t)
    && (t.UnlockIfAble? || t.WaitForEvent? || t.Start? ==> IsUser(procs, t.p) && procs[t.p].Alive())
  }

  lemma AppendKeepsTables(s: State, t: Task)
    requires TablesOk(s)
    requires Queueable(s.procs, t)
    ensures TablesOk(s.(todo := s.todo + [t]))
    ensures Stage(s.todo + [t]) == Stage(s.todo)
  {
  }

  lemma DispatchKeeps(s: State, t: Task)
    requires Inv(s) && s.queueRunning
    requires Queueable(s.procs, t)
    requires s.kernel.Ready? ==> s.isr == 1
    ensures match Dispatch(s, t) case Ok(s') => Inv(s') case Halt(why) => why == QueueFull
  {
    AppendKeepsTables(s, t);
  }

  lemma StateDidChangeKeeps(s: State)
    requires Inv(s) && s.queueRunning
    requires s.kernel.Ready? ==> s.isr == 1
    ensures match StateDidChange(s) case Ok(s') => Inv(s') case Halt(why) => why == QueueFull
  {
    DispatchKeeps(s.(elapsed := GRANULARITY_MS), Evaluate);
  }

  /** A live process changes its state or its locks and stays alive. */
  lemma LiveChangeKeepsOthers(s: State, p: int, q: Proc)
    requires OthersOk(s)
    requires IsUser(s.procs, p) && s.procs[p].Alive() && q.Alive()
    requires q.event ==> IsEmpty(s.loops[p])
    ensures OthersOk(s.(procs := s.procs[p := q]))
  {
  }

  lemma OthersIgnoreReplies(s: State, replies: seq<Reply>)
    requires OthersOk(s)
    ensures OthersOk(s.(replies := replies))
  {
  }

  lemma ProcChangeKeepsTables(s: State, p: int, q: Proc)
    requires TablesOk(s)
    requires IsUser(s.procs, p) && s.procs[p].Alive() && q.Alive()
    requires q.Locked() <==> q.state.Blocked?
    requires OwnsToken(s.replies, p) ==> q.ipc
    requires q.ipc ==> OwnsToken(s.replies, p) || UnlockIfAble(p) in s.todo
    requires p < |s.loops| && (q.event ==> IsEmpty(s.loops[p]))
    ensures TablesOk(s.(procs := s.procs[p := q]))
  {
    hide OthersOk;
    LiveChangeKeepsOthers(s, p, q);
  }

  /** What may be halted for, inside a step, on behalf of which party. */
  predicate Interruptible(s: State) {
    s.queueRunning && (s.kernel.Ready? ==> s.isr == 1)
  }

  lemma LockForEventKeeps(s: State, p: int)
    requires Inv(s) && Interruptible(s)
    requires s.kernel.Running? && IsUser(s.procs, p) && s.procs[p].Alive() && IsEmpty(s.loops[p])
    ensures match LockProc(s, p, EventLock) case Ok(s') => Inv(s') case Halt(why) => why == QueueFull
  {
    var q := s.procs[p].With(EventLock).(state := Blocked);
    ProcChangeKeepsTables(s, p, q);
    if !s.procs[p].state.Blocked? {
      AppendKeepsTables(SetProc(s, p, q), Evaluate);
    }
  }

  /** A lock is taken off a process that does not need it any more. */
  lemma UnlockKeeps(s: State, p: int, l: Lock)
    requires Inv(s) && Interruptible(s)
    requires IsUser(s.procs, p) && s.procs[p].Alive()
    requires l.IpcLock? ==> !OwnsToken(s.replies, p) && (s.kernel.Ready? ==> p != s.current)
    ensures match UnlockProc(s, p, l)
            case Ok(s') =>
              var q := s.procs[p].Without(l);
              && Inv(s')
              && if q.state.Blocked? && !q.Locked() then s'.procs[p] == q.(state := Ready) && s'.todo == s.todo + [Evaluate]
                 else s'.procs[p] == q && s'.todo == s.todo
            case Halt(why) => why == QueueFull
  {
    hide OthersOk, HistoryOk;
    var q := s.procs[p].Without(l);
    EventStays(s, p);
    if !q.state.Blocked? || q.Locked() {
      ProcChangeKeepsTables(s, p, q);
    } else {
      var q' := q.(state := Ready);
      ProcChangeKeepsTables(s, p, q');
      AppendKeepsTables(SetProc(s, p, q'), Evaluate);
      var s1 := SetProc(s, p, q');
      var s2 := s1.(todo := s.todo + [Evaluate]);
      SameTables(s2, s2.(elapsed := GRANULARITY_MS));
      SameHistory(s, s2.(elapsed := GRANULARITY_MS));
      return;
    }
    SameHistory(s, SetProc(s, p, q));
  }

  lemma EventStays(s: State, p: int)
    requires OthersOk(s) && IsUser(s.procs, p)
    ensures |s.loops| == |s.procs|
    ensures s.procs[p].event ==> IsEmpty(s.loops[p])
  {
  }

  /** Nothing but the process table, the queue and the tick counter changed; tasks were only added. */
  predicate OnlyQueued(s: State, s': State) {
    && s' == s.(procs := s'.procs, todo := s'.todo, elapsed := s'.elapsed)
    && |s'.procs| == |s.procs|
    && s.todo <= s'.todo
  }

  // ---------------------------------------------------------------- reply tokens

  lemma ReleaseTokenKeeps(s: State, token: nat)
    requires Inv(s) && Interruptible(s)
    requires token < |s.replies| && s.replies[token].sender != NONE_PROC_ID
    requires s.kernel.Ready? ==> s.procs[s.current].state.Running?
    ensures match ReleaseToken(s, token)
            case Ok(s') => Inv(s') && s'.replies == s.replies[token := NO_REPLY] && !s'.procs[s.replies[token].sender].ipc
            case Halt(why) => why == QueueFull
  {
    hide TablesOk, HistoryOk, OwnsToken;
    TokenOwner(s, token);
    var p := s.replies[token].sender;
    var s1 := s.(replies := s.replies[token := NO_REPLY]);
    // Until the lock is gone, the queue looks as if the unlocking were still to be done.
    var q := s.procs[p].Without(IpcLock);
    var q' := if q.Locked() then q else q.(state := Ready);
    ReleaseKeepsTables(s, token, q');
    var s2 := SetProc(s1, p, q');
    SameHistory(s, s2);
    if !q.Locked() {
      AppendKeepsTables(s2, Evaluate);
      var s3 := s2.(elapsed := GRANULARITY_MS, todo := s2.todo + [Evaluate]);
      SameTables(s2.(todo := s2.todo + [Evaluate]), s3);
      SameHistory(s, s3);
    }
  }

  lemma TokenOwner(s: State, token: nat)
    requires TablesOk(s)
    requires token < |s.replies| && s.replies[token].sender != NONE_PROC_ID
    ensures var p := s.replies[token].sender;
            && IsUser(s.procs, p) && s.procs[p].state.Blocked? && s.procs[p].ipc
            && !OwnsToken(s.replies[token := NO_REPLY], p)
  {
  }

  lemma ReleaseKeepsTables(s: State, token: nat, q: Proc)
    requires TablesOk(s)
    requires token < |s.replies| && s.replies[token].sender != NONE_PROC_ID
    requires var old' := s.procs[s.replies[token].sender];
             q == old'.(ipc := false, state := if old'.event then Blocked else Ready)
    ensures TablesOk(SetProc(s.(replies := s.replies[token := NO_REPLY]), s.replies[token].sender, q))
  {
    hide OthersOk;
    EventStays(s, s.replies[token].sender);
    LiveChangeKeepsOthers(s, s.replies[token].sender, q);
    OthersIgnoreReplies(SetProc(s, s.replies[token].sender, q), s.replies[token := NO_REPLY]);
    OtherOwnersStay(s.replies, token, NO_REPLY);
  }

  lemma OtherOwnersStay(replies: seq<Reply>, token: nat, r: Reply)
    requires token < |replies|
    ensures forall w :: OwnsToken(replies, w) && w != replies[token].sender ==> OwnsToken(replies[token := r], w)
  {
    forall w | OwnsToken(replies, w) && w != replies[token].sender
      ensures OwnsToken(replies[token := r], w)
    {
      var i :| 0 <= i < |replies| && replies[i].sender == w;
      assert replies[token := r][i].sender == w;
    }
  }

  lemma FreeReplyIsLowest(replies: seq<Reply>, i: nat)
    requires i <= |replies|
    ensures i <= FreeReply(replies, i) <= |replies|
    ensures forall k :: i <= k < FreeReply(replies, i) ==> replies[k].sender != NONE_PROC_ID
    ensures FreeReply(replies, i) < |replies| ==> replies[FreeReply(replies, i)].sender == NONE_PROC_ID
    decreases |replies| - i
  {
  }

  /** Tokens have different owners, and the caller has none: one is left. */
  lemma TokenLeft(s: State, p: int)
    requires Inv(s)
    requires IsUser(s.procs, p) && s.procs[p].state.Running?
    ensures FreeReply(s.replies, 0) < |s.replies|
  {
    FreeReplyIsLowest(s.replies, 0);
    if FreeReply(s.replies, 0) == |s.replies| {
      var owners := set i | 0 <= i < |s.replies| :: s.replies[i].sender;
      OwnersCount(s.replies, |s.replies|);
      var users := Below(|s.procs|);
      assert owners <= users - {p};
      SubsetSize(owners, users - {p});
    }
  }

  lemma OwnersCount(replies: seq<Reply>, n: nat)
    requires n <= |replies|
    requires forall i, j :: 0 <= i < j < n ==> replies[i].sender != replies[j].sender
    ensures |set i | 0 <= i < n :: replies[i].sender| == n
  {
    if n > 0 {
      OwnersCount(replies, n - 1);
      var before := set i | 0 <= i < n - 1 :: replies[i].sender;
      assert (set i | 0 <= i < n :: replies[i].sender) == before + {replies[n - 1].sender};
    }
  }

  /** Taking a token and being blocked for it go together. */
  lemma TakeTokenKeeps(s: State, handler: int, bytes: nat)
    requires Inv(s) && Interruptible(s) && s.kernel.Ready?
    requires s.procs[s.current].state.Running?
    requires Known(s.procs, s.todo, handler, 1)
    ensures match TakeToken(s, s.current, handler, bytes)
            case Ok((s', token)) =>
              && Inv(s') && OnlyQueued(s.(replies := s'.replies), s')
              && token < |s.replies| && s'.replies == s.replies[token := Reply(s.current, handler, bytes)]
              && s'.procs[s.current].state.Blocked? && s'.procs[s.current].ipc
            case Halt(why) => why == QueueFull
  {
    var p := s.current;
    TokenLeft(s, p);
    FreeReplyIsLowest(s.replies, 0);
    var token := FreeReply(s.replies, 0);
    var s1 := s.(replies := s.replies[token := Reply(p, handler, bytes)]);
    var s2 := SetProc(s1, p, s.procs[p].With(IpcLock).(state := Blocked));
    TakeKeepsTables(s, token, p, handler, bytes);
    AppendKeepsTables(s2, Evaluate);
  }

  lemma TakeKeepsTables(s: State, token: nat, p: int, handler: int, bytes: nat)
    requires TablesOk(s)
    requires token < |s.replies| && s.replies[token].sender == NONE_PROC_ID
    requires IsUser(s.procs, p) && s.procs[p].state.Running?
    requires Known(s.procs, s.todo, handler, 1)
    ensures TablesOk(SetProc(s.(replies := s.replies[token := Reply(p, handler, bytes)]), p, s.procs[p].(ipc := true, state := Blocked)))
  {
    hide OthersOk;
    var q := s.procs[p].(ipc := true, state := Blocked);
    EventStays(s, p);
    LiveChangeKeepsOthers(s, p, q);
    OthersIgnoreReplies(SetProc(s, p, q), s.replies[token := Reply(p, handler, bytes)]);
    OtherOwnersStay(s.replies, token, Reply(p, handler, bytes));
    assert s.replies[token := Reply(p, handler, bytes)][token].sender == p;
  }

  // ---------------------------------------------------------------- delivery

  /** What a delivery leaves as it was: everything but queueing, a run loop and an event lock. */
  ghost predicate Quiet(s: State, s': State) {
    && s' == s.(procs := s'.procs, todo := s'.todo, elapsed := s'.elapsed, loops := s'.loops, mail := s'.mail)
    && |s'.procs| == |s.procs|
    && s.todo <= s'.todo && Stage(s'.todo) == Stage(s.todo)
    && forall q :: 0 <= q < |s.procs| ==>
        && s'.procs[q].ipc == s.procs[q].ipc
        && (s.procs[q].ipc || !s.procs[q].state.Blocked? ==> s'.procs[q].state == s.procs[q].state)
        && (s'.procs[q].Alive() <==> s.procs[q].Alive())
  }

  /** Delivery to a process that is alive, or just finished, keeps the invariant. */
  lemma CallbackKeeps(s: State, p: int, m: Message, bytes: nat)
    requires Inv(s) && Interruptible(s)
    requires IsUser(s.procs, p) && (s.procs[p].Alive() || s.procs[p].state.Finished?)
    ensures match CallbackInvoke(s, p, m, bytes)
            case Ok((s', e)) =>
              && Inv(s') && Quiet(s, s')
              && (e == PeIgnored <==> s.procs[p].state.Finished?)
              && (e == PeLimitReached <==> !s.procs[p].state.Finished? && IsFull(s.loops[p]))
              && (e != PeNone ==> s' == s)
              && (e == PeNone ==>
                    bytes <= DISPATCH_MAX_DATA_SIZE_BYTES && s'.loops == s.loops[p := s.loops[p] + [Filled(m, bytes, false, bytes == 0)]])
            case Halt(why) =>
              && (why == QueueFull || (why == PayloadTooLarge && bytes > DISPATCH_MAX_DATA_SIZE_BYTES))
              && s.procs[p].Alive() && !IsFull(s.loops[p])
    requires bytes > 0
  {
    hide TablesOk, HistoryOk, StartupOk, SchedOk, ModeOk;
    LoopsAreOk(s);
    if s.procs[p].Alive() && !IsFull(s.loops[p]) && bytes <= DISPATCH_MAX_DATA_SIZE_BYTES {
      var f := s.loops[p] + [Filled(m, bytes, false, false)];
      CallbackIsUnlock(s, p, m, bytes, f);
      UnlockKeeps(s, p, EventLock);
      if UnlockProc(s, p, EventLock).Ok? {
        var u := UnlockProc(s, p, EventLock).value;
        UnlockIsQuiet(s, p);
        DeliveredKeeps(s, u, p, f, s.mail + [Delivered(m, p)]);
      }
    }
  }

  /** Unlocking does not look at the run loops, so it may as well come before the new item. */
  lemma CallbackIsUnlock(s: State, p: int, m: Message, bytes: nat, f: Fifo<Message>)
    requires IsUser(s.procs, p) && s.procs[p].Alive() && |s.loops| == |s.procs| && !IsFull(s.loops[p])
    requires 0 < bytes <= DISPATCH_MAX_DATA_SIZE_BYTES
    requires f == s.loops[p] + [Filled(m, bytes, false, false)]
    ensures UnlockProc(s, p, EventLock).Ok? ==> UnlockProc(s, p, EventLock).value.loops == s.loops
    ensures CallbackInvoke(s, p, m, bytes) == match UnlockProc(s, p, EventLock)
            case Halt(why) => Halt(why)
            case Ok(u) => match StateDidChange(u.(loops := s.loops[p := f], mail := s.mail + [Delivered(m, p)]))
              case Halt(why) => Halt(why)
              case Ok(s') => Ok((s', PeNone))
  {
    assert f == Fill(Reserve(s.loops[p]), |s.loops[p]|, m, bytes);
    var s0 := s.(loops := s.loops[p := f], mail := s.mail + [Delivered(m, p)]);
    assert UnlockProc(s0, p, EventLock) == match UnlockProc(s, p, EventLock)
      case Halt(why) => Halt(why)
      case Ok(u) => Ok(u.(loops := s0.loops, mail := s0.mail));
  }

  lemma DeliveredKeeps(s: State, u: State, p: int, f: Fifo<Message>, mail: seq<Mail>)
    requires Inv(u) && Interruptible(u) && Quiet(s, u)
    requires IsUser(u.procs, p) && u.procs[p].Alive() && !u.procs[p].event && LoopOk(f) && u.loops == s.loops
    ensures match StateDidChange(u.(loops := u.loops[p := f], mail := mail))
            case Ok(s') => Inv(s') && Quiet(s, s') && s'.loops == s.loops[p := f]
            case Halt(why) => why == QueueFull
  {
    hide TablesOk, HistoryOk, StartupOk, SchedOk, ModeOk;
    LoopsAreOk(u);
    LoopChangeKeeps(u, p, f, mail);
    StateDidChangeKeeps(u.(loops := u.loops[p := f], mail := mail));
  }

  lemma LoopsAreOk(s: State)
    requires Inv(s)
    ensures |s.loops| == |s.mapped| == |s.procs|
    ensures forall p :: 0 <= p < |s.loops| ==> LoopOk(s.loops[p])
  {
  }

  lemma UnlockIsQuiet(s: State, p: int)
    requires Inv(s)
    requires IsUser(s.procs, p) && s.procs[p].Alive()
    ensures UnlockProc(s, p, EventLock).Ok? ==> Quiet(s, UnlockProc(s, p, EventLock).value)
  {
  }

  lemma LoopChangeKeeps(s: State, p: int, f: Fifo<Message>, mail: seq<Mail>)
    requires Inv(s)
    requires IsUser(s.procs, p) && s.procs[p].Alive() && LoopOk(f)
    requires s.procs[p].event ==> IsEmpty(f)
    ensures Inv(s.(loops := s.loops[p := f], mail := mail))
  {
  }

  lemma NextListenerIsFirst(listeners: seq<Listener>, path: string, i: nat)
    requires i <= |listeners|
    ensures var j := NextListener(listeners, path, i);
            && i <= j <= |listeners|
            && (j < |listeners| ==> IpcPath.Matches(path, listeners[j].path))
            && forall k :: i <= k < j ==> !IpcPath.Matches(path, listeners[k].path)
    decreases |listeners| - i
  {
  }

  /** The listener found for a non-empty path is somebody's. */
  lemma FoundListenerIsKnown(s: State, path: string, any: bool, target: int, i: nat)
    requires Inv(s)
    requires i <= |s.listeners| && path != []
    ensures var j := FindListener(s.listeners, path, any, target, i);
            && j <= |s.listeners|
            && (j < |s.listeners| ==> Known(s.procs, s.todo, s.listeners[j].procId, 1) && (any || s.listeners[j].procId == target))
    decreases |s.listeners| - i
  {
    NextListenerIsFirst(s.listeners, path, i);
    var j := NextListener(s.listeners, path, i);
    if j < |s.listeners| && !any && s.listeners[j].procId != target {
      FoundListenerIsKnown(s, path, any, target, j + 1);
    }
  }

  /** A message that could not be delivered gives its token back, and its sender is let go later. */
  lemma DropTokenKeeps(s: State, token: nat)
    requires Inv(s) && Interruptible(s)
    requires token < |s.replies| && s.replies[token].sender != NONE_PROC_ID
    ensures match Dispatch(s.(replies := s.replies[token := NO_REPLY]), UnlockIfAble(s.replies[token].sender))
            case Ok(s') =>
              && Inv(s') && Quiet(s.(replies := s'.replies), s')
              && s'.replies == s.replies[token := NO_REPLY] && s'.todo == s.todo + [UnlockIfAble(s.replies[token].sender)]
            case Halt(why) => why == QueueFull
  {
    var t := UnlockIfAble(s.replies[token].sender);
    AppendKeepsTables(s, t);
    OtherOwnersStay(s.replies, token, NO_REPLY);
  }

  lemma DeliverKeeps(s: State, l: Listener, source: int, bytes: nat, replyBytes: nat, token: nat)
    requires Inv(s) && Interruptible(s)
    requires Known(s.procs, s.todo, l.procId, 1)
    requires replyBytes != 0 ==> token < |s.replies| && s.replies[token].sender == source && source != NONE_PROC_ID
    ensures match Deliver(s, l, source, bytes, replyBytes, token)
            case Ok((s', e)) =>
              && Inv(s') && Quiet(s.(replies := s'.replies), s')
              && (e == NoError || replyBytes == 0 ==> s'.replies == s.replies)
              && (e != NoError && replyBytes != 0 ==>
                    s'.replies == s.replies[token := NO_REPLY] && s'.todo == s.todo + [UnlockIfAble(source)])
              && (e != NoError <==> s.procs[l.procId].state.Finished? || IsFull(s.loops[l.procId]))
              && (e != NoError ==> s'.loops == s.loops)
              && (e == NoError ==> QUERY_HEADER_BYTES + bytes <= DISPATCH_MAX_DATA_SIZE_BYTES)
              && (e == NoError ==> |s'.loops| == |s.loops| && forall p :: 0 <= p < |s.loops| ==>
                    |s'.loops[p]| == |s.loops[p]| + if p == l.procId then 1 else 0)
            case Halt(why) =>
              && (why == QueueFull || (why == PayloadTooLarge && QUERY_HEADER_BYTES + bytes > DISPATCH_MAX_DATA_SIZE_BYTES))
              && ((why == QueueFull && replyBytes != 0) || (s.procs[l.procId].Alive() && !IsFull(s.loops[l.procId])))
  {
    hide TablesOk, HistoryOk, StartupOk, SchedOk, ModeOk, CallbackInvoke;
    LoopsAreOk(s);
    CallbackKeeps(s, l.procId, Message(source, token), QUERY_HEADER_BYTES + bytes);
    var r := CallbackInvoke(s, l.procId, Message(source, token), QUERY_HEADER_BYTES + bytes);
    if r.Ok? && r.value.1 != PeNone && replyBytes != 0 {
      DropTokenKeeps(s, token);
    }
  }

  // ---------------------------------------------------------------- history

  lemma GrantStays(log: seq<Event>, e: Event, granter: int, grantee: int, permissions: bv32)
    requires GrantLive(log, granter, grantee, permissions)
    requires e != Spawned(granter) && e != Spawned(grantee)
    ensures GrantLive(log + [e], granter, grantee, permissions)
  {
    var j :| 0 <= j < |log| && GrantsAt(log, j, granter, grantee) && log[j].permissions == permissions;
    assert (log + [e])[j] == log[j];
    assert GrantsAt(log + [e], j, granter, grantee);
  }

  lemma GrantBegins(log: seq<Event>, granter: int, grantee: int, permissions: bv32)
    ensures GrantLive(log + [Granted(granter, grantee, permissions)], granter, grantee, permissions)
  {
    var log' := log + [Granted(granter, grantee, permissions)];
    assert log'[|log|] == Granted(granter, grantee, permissions);
    assert GrantsAt(log', |log|, granter, grantee);
  }

  lemma MessagesStayGranted(log: seq<Event>, e: Event)
    requires MessagesGranted(log)
    requires e.BoundMessage? ==> Covered(log, e)
    ensures MessagesGranted(log + [e])
  {
    var log' := log + [e];
    forall i | 0 <= i < |log'| && log'[i].BoundMessage?
      ensures Covered(log'[..i], log'[i])
    {
      if i < |log| {
        assert log'[..i] == log[..i];
      } else {
        assert log'[..i] == log;
      }
    }
  }

  lemma LastSwitchedAfter(log: seq<Event>, e: Event)
    ensures LastSwitched(log + [e]) == if e.Switched? then e.p else LastSwitched(log)
  {
    assert (log + [e])[..|log|] == log;
  }

  /** An event that ends no life and needs no cover. */
  lemma LogKeeps(s: State, e: Event)
    requires Inv(s)
    requires !e.Spawned? && !e.Switched?
    requires e.BoundMessage? ==> Covered(s.log, e)
    ensures Inv(s.(log := s.log + [e]))
  {
    hide TablesOk, StartupOk, SchedOk, ModeOk;
    var s' := s.(log := s.log + [e]);
    MessagesStayGranted(s.log, e);
    LastSwitchedAfter(s.log, e);
    forall i | 0 <= i < |s.bindings| && s.bindings[i].sender != NONE_PROC_ID
      ensures GrantLive(s'.log, s.bindings[i].receiver, s.bindings[i].sender, s.bindings[i].permissions)
    {
      GrantStays(s.log, e, s.bindings[i].receiver, s.bindings[i].sender, s.bindings[i].permissions);
    }
    InvExceptHistory(s, s'.log);
  }

  /** Only the history part of the invariant looks at the log. */
  lemma InvExceptHistory(s: State, log: seq<Event>)
    requires Inv(s)
    requires HistoryOk(s.(log := log))
    ensures Inv(s.(log := log))
  {
  }

  // ---------------------------------------------------------------- bindings

  lemma FoundBinding(bindings: seq<Binding>, sender: int, receiver: int, i: nat)
    requires i <= |bindings|
    ensures var j := FindBinding(bindings, sender, receiver, i);
            && i <= j <= |bindings|
            && (j < |bindings| ==> bindings[j].sender == sender && bindings[j].receiver == receiver)
            && forall k :: i <= k < j ==> bindings[k].sender != sender || bindings[k].receiver != receiver
    decreases |bindings| - i
  {
  }

  lemma ClearBindingKeeps(s: State, i: nat)
    requires Inv(s) && i < |s.bindings|
    ensures Inv(s.(bindings := s.bindings[i := NO_BINDING]))
  {
  }

  lemma WriteBindingKeeps(s: State, i: nat, sender: int, receiver: int, permissions: bv32)
    requires Inv(s) && i < |s.bindings|
    requires Known(s.procs, s.todo, sender, 1) && Known(s.procs, s.todo, receiver, 1)
    ensures Inv(WriteBinding(s, i, sender, receiver, permissions))
  {
    hide DrainOk, EventsOk, TasksOk, DevicesOk, ListenersOk, BindingsOk, MemoryOk, ProcsOk, TokensOk, WaitersOk,
         BindingsGranted, MessagesGranted, LastSwitched;
    var e := Granted(receiver, sender, permissions);
    LogKeeps(s, e);
    WrittenBindingIsOk(s.procs, s.todo, s.bindings, i, sender, receiver, permissions);
    WrittenBindingIsGranted(s.bindings, s.log, i, sender, receiver, permissions);
  }

  lemma WrittenBindingIsOk(procs: seq<Proc>, todo: seq<Task>, bindings: seq<Binding>, i: nat,
                           sender: int, receiver: int, permissions: bv32)
    requires BindingsOk(procs, todo, bindings) && i < |bindings|
    requires Known(procs, todo, sender, 1) && Known(procs, todo, receiver, 1)
    ensures BindingsOk(procs, todo, bindings[i := Binding(sender, receiver, permissions)])
  {
  }

  lemma WrittenBindingIsGranted(bindings: seq<Binding>, log: seq<Event>, i: nat, sender: int, receiver: int, permissions: bv32)
    requires i < |bindings| && BindingsGranted(bindings, log + [Granted(receiver, sender, permissions)])
    ensures BindingsGranted(bindings[i := Binding(sender, receiver, permissions)], log + [Granted(receiver, sender, permissions)])
  {
    hide GrantLive;
    GrantBegins(log, receiver, sender, permissions);
  }

  ghost predicate ListenersAlive(s: State) {
    forall i :: 0 <= i < |s.listeners| && s.listeners[i].procId != NONE_PROC_ID ==>
      IsUser(s.procs, s.listeners[i].procId) && s.procs[s.listeners[i].procId].Alive()
  }

  /** Process p hears of destroyed bindings. */
  ghost predicate Listens(listeners: seq<Listener>, p: int) {
    exists i :: 0 <= i < |listeners| && ListensAt(listeners[i], p)
  }

  predicate ListensAt(l: Listener, p: int) {
    l.procId == p && IpcPath.Matches(IpcPath.SESSION_DESTROYED, l.path)
  }

  /** A notice to p does not get through. */
  ghost predicate Refuses(s: State, p: int) {
    Listens(s.listeners, p) && 0 <= p < |s.loops| && IsFull(s.loops[p])
  }

  /** One notice to the target, if it listens. */
  ghost predicate Notified(s: State, s': State, target: int) {
    && |s'.loops| == |s.loops|
    && forall p :: 0 <= p < |s.loops| ==>
         |s'.loops[p]| == |s.loops[p]| + if p == target && Listens(s.listeners, target) then 1 else 0
  }

  lemma FindsWhoListens(listeners: seq<Listener>, p: int, i: nat)
    requires i <= |listeners|
    ensures FindListener(listeners, IpcPath.SESSION_DESTROYED, false, p, i) < |listeners| <==>
            exists k :: i <= k < |listeners| && ListensAt(listeners[k], p)
    decreases |listeners| - i
  {
    hide IpcPath.Matches;
    NextListenerIsFirst(listeners, IpcPath.SESSION_DESTROYED, i);
    var j := NextListener(listeners, IpcPath.SESSION_DESTROYED, i);
    if j < |listeners| && listeners[j].procId != p {
      FindsWhoListens(listeners, p, j + 1);
    }
  }

  lemma NotifyKeeps(s: State, target: int)
    requires Inv(s) && Interruptible(s) && ListenersAlive(s)
    ensures match NotifySessionDestroyed(s, target)
            case Ok(s') => Inv(s') && Quiet(s, s') && Notified(s, s', target)
            case Halt(why) => why == QueueFull || why == NotificationRefused
    ensures NotifySessionDestroyed(s, target) == Halt(NotificationRefused) <==> Refuses(s, target)
  {
    hide TablesOk, HistoryOk, StartupOk, SchedOk, ModeOk, CallbackInvoke, Deliver, IpcPath.Matches;
    assert IpcPath.SESSION_DESTROYED != [];
    FindsWhoListens(s.listeners, target, 0);
    FoundListenerIsKnown(s, IpcPath.SESSION_DESTROYED, false, target, 0);
    LoopsAreOk(s);
    var i := FindListener(s.listeners, IpcPath.SESSION_DESTROYED, false, target, 0);
    if i < |s.listeners| {
      assert Listens(s.listeners, target) && s.procs[target].Alive();
      DeliverKeeps(s, s.listeners[i], KERNEL_PROC_ID, PROC_ID_BYTES, 0, |s.replies|);
    } else {
      assert !Listens(s.listeners, target);
    }
  }

  /** The party that did not ask for the end of a binding. */
  function OtherParty(b: Binding, requester: int): int {
    if b.receiver == requester then b.sender else b.receiver
  }

  lemma DestroyBindingAtKeeps(s: State, i: nat, requester: int)
    requires Inv(s) && Interruptible(s) && ListenersAlive(s) && i < |s.bindings|
    ensures match DestroyBindingAt(s, i, requester)
            case Ok(s') =>
              && Inv(s') && Quiet(s.(bindings := s'.bindings), s') && s'.bindings == s.bindings[i := NO_BINDING]
              && Notified(s, s', OtherParty(s.bindings[i], requester))
            case Halt(why) => why == QueueFull || why == NotificationRefused
    ensures DestroyBindingAt(s, i, requester) == Halt(NotificationRefused) <==> Refuses(s, OtherParty(s.bindings[i], requester))
  {
    hide TablesOk, HistoryOk, StartupOk, SchedOk, ModeOk, NotifySessionDestroyed, Refuses, Listens;
    var target := OtherParty(s.bindings[i], requester);
    NotifyKeeps(s, target);
    if NotifySessionDestroyed(s, target).Ok? {
      ClearBindingKeeps(NotifySessionDestroyed(s, target).value, i);
    }
  }

  /** The bindings, and the history of grants, are all that ApplyBind changes besides queueing. */
  ghost predicate QuietButBindings(s: State, s': State) {
    Quiet(s.(bindings := s'.bindings, log := s'.log), s')
  }

  lemma ApplyBindKeeps(s: State, peer: int, p: int, b: BindData)
    requires Inv(s) && Interruptible(s) && ListenersAlive(s)
    requires Known(s.procs, s.todo, peer, 1) && Known(s.procs, s.todo, p, 1)
    ensures match ApplyBind(s, peer, p, b)
            case Ok((s', e)) => Inv(s') && QuietButBindings(s, s')
            case Halt(why) => why == QueueFull || why == NotificationRefused
    ensures ApplyBind(s, peer, p, b) == Halt(NotificationRefused) <==>
            b.flag.Unbind? && FindBinding(s.bindings, peer, p, 0) < |s.bindings| && Refuses(s, peer)
  {
    hide TablesOk, HistoryOk, StartupOk, SchedOk, ModeOk, NotifySessionDestroyed, Refuses, Listens;
    match b.flag
    case NoBind =>
    case Bind =>
      FoundBinding(s.bindings, NONE_PROC_ID, NONE_PROC_ID, 0);
      var i := FindBinding(s.bindings, NONE_PROC_ID, NONE_PROC_ID, 0);
      if i < |s.bindings| { WriteBindingKeeps(s, i, peer, p, b.permissions); }
    case Update =>
      FoundBinding(s.bindings, peer, p, 0);
      var i := FindBinding(s.bindings, peer, p, 0);
      if i < |s.bindings| { WriteBindingKeeps(s, i, peer, p, b.permissions); }
    case Unbind =>
      FoundBinding(s.bindings, peer, p, 0);
      var i := FindBinding(s.bindings, peer, p, 0);
      if i < |s.bindings| { DestroyBindingAtKeeps(s, i, p); }
  }
}
