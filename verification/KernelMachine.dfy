/** The kernel as it runs: fixed tables updated in place, each function refining its description. */
module KernelMachine {
  import opened Outcomes
  import opened RunLoopSpec
  import opened IpcPath
  import opened KernelState
  import KernelInvariant
  import KernelCalls
  import KernelRuns

  class Kernel {
    const procs: array<Proc>
    const loops: array<Fifo<Message>>
    const mapped: array<set<int>>
    const listeners: array<Listener>
    const replies: array<Reply>
    const bindings: array<Binding>
    const devices: array<Device>

    var kernel: ProcState
    var current: int
    var last: int
    var next: int
    var elapsed: nat
    var resuming: bool
    var queueRunning: bool
    var head: Option<Task>
    var todo: seq<Task>
    var isr: nat
    ghost var log: seq<Event>
    ghost var mail: seq<Mail>

    ghost function View(): State
      reads this, procs, loops, mapped, listeners, replies, bindings, devices
    {
      State(procs[..], kernel, current, last, next, elapsed, resuming, queueRunning, head, todo, isr,
            loops[..], mapped[..], listeners[..], replies[..], bindings[..], devices[..], log, mail)
    }

    /** After boot nothing has been started. */
    constructor (procCount: nat, listenerCount: nat, tokenCount: nat, bindingCount: nat, started: seq<bool>)
      ensures View() == Boot(procCount, listenerCount, tokenCount, bindingCount, started)
      ensures fresh(procs) && fresh(loops) && fresh(mapped) && fresh(listeners) && fresh(replies) && fresh(bindings) && fresh(devices)
    {
      procs := new Proc[procCount](_ => EMPTY_PROC);
      loops := new Fifo<Message>[procCount](_ => []);
      mapped := new set<int>[procCount](_ => {});
      listeners := new Listener[listenerCount](_ => NO_LISTENER);
      replies := new Reply[tokenCount](_ => NO_REPLY);
      bindings := new Binding[bindingCount](_ => NO_BINDING);
      devices := new Device[|started|](i requires 0 <= i < |started| => Device(started[i], NONE_PROC_ID, false));
      kernel, current := Running, KERNEL_PROC_ID;
      last, next, elapsed, resuming := KERNEL_PROC_ID, KERNEL_PROC_ID, GRANULARITY_MS, false;
      queueRunning, head, todo, isr, log, mail := false, None, [], 0, [], [];
      new;
      ghost var boot := Boot(procCount, listenerCount, tokenCount, bindingCount, started);
      assert procs[..] == boot.procs && loops[..] == boot.loops && mapped[..] == boot.mapped;
      assert listeners[..] == boot.listeners && replies[..] == boot.replies && bindings[..] == boot.bindings;
      assert devices[..] == boot.devices;
    }

    method Dispatch(t: Task) returns (oops: Option<Oops>)
      modifies this`todo
      ensures Follows(oops, View(), KernelState.Dispatch(old(View()), t))
    {
      if !queueRunning {
        return Some(QueueNotRunning);
      }
      var length := |todo| + if head.Some? then 1 else 0;
      if length >= MAX_QUEUE_LENGTH {
        return Some(QueueFull);
      }
      todo := todo + [t];
      return None;
    }

    method StateDidChange() returns (oops: Option<Oops>)
      modifies this`elapsed, this`todo
      ensures Follows(oops, View(), KernelState.StateDidChange(old(View())))
    {
      elapsed := GRANULARITY_MS;
      oops := Dispatch(Evaluate);
    }

    method Lock(p: int, l: Lock) returns (oops: Option<Oops>)
      modifies procs, this`elapsed, this`todo
      ensures Follows(oops, View(), KernelState.LockProc(old(View()), p, l))
    {
      if p <= KERNEL_PROC_ID || p >= procs.Length {
        return Some(ProcIdOutOfRange);
      }
      procs[p] := procs[p].With(l);
      if procs[p].state.Blocked? {
        return None;
      }
      if !procs[p].state.Ready? && !procs[p].state.Running? {
        return Some(LockInBadState);
      }
      procs[p] := procs[p].(state := Blocked);
      oops := StateDidChange();
    }

    method Unlock(p: int, l: Lock) returns (oops: Option<Oops>)
      modifies procs, this`elapsed, this`todo
      ensures Follows(oops, View(), KernelState.UnlockProc(old(View()), p, l))
    {
      if p <= KERNEL_PROC_ID || p >= procs.Length {
        return Some(ProcIdOutOfRange);
      }
      procs[p] := procs[p].Without(l);
      if !procs[p].state.Blocked? || procs[p].Locked() {
        return None;
      }
      procs[p] := procs[p].(state := Ready);
      oops := StateDidChange();
    }

    method UnlockIfAble(p: int) returns (oops: Option<Oops>)
      modifies procs, this`elapsed, this`todo
      ensures Follows(oops, View(), KernelState.UnlockProcIfAble(old(View()), p))
    {
      for token := 0 to replies.Length
        invariant forall i :: 0 <= i < token ==> replies[i].sender != p
      {
        if replies[token].sender == p {
          assert replies[..][token].sender == p;
          return None;
        }
      }
      oops := Unlock(p, IpcLock);
    }

    // -------------------------------------------------------------- scheduler

    method ProcSelect() returns (p: int)
      requires -1 <= last
      ensures p == KernelState.ProcSelect(procs[..], last)
    {
      for i := 0 to procs.Length
        invariant KernelState.ProcSelect(procs[..], last) == SelectFrom(procs[..], last, i)
      {
        p := (last + i + 1) % procs.Length;
        if procs[p].state.Ready? {
          return;
        }
      }
      p := KERNEL_PROC_ID;
    }

    method Select()
      requires -1 <= last
      modifies this`next
      ensures View() == old(View()).(next := KernelState.ProcSelect(old(procs[..]), last))
    {
      next := ProcSelect();
    }

    method OnTick() returns (oops: Option<Oops>)
      modifies this`elapsed, this`todo
      ensures Follows(oops, View(), KernelState.OnTick(old(View())))
    {
      if elapsed >= GRANULARITY_MS {
        return None;
      }
      elapsed := elapsed + 1;
      if elapsed < GRANULARITY_MS {
        return None;
      }
      oops := Dispatch(Evaluate);
    }

    method DidHatch(p: int) returns (oops: Option<Oops>)
      requires -1 <= last
      modifies this`next
      ensures Follows(oops, View(), KernelState.DidHatch(old(View()), p))
    {
      if p < 0 || p >= procs.Length || !procs[p].state.Ready? {
        return Some(HatchedNotReady);
      }
      if next < 0 {
        Select();
      }
      return None;
    }

    // -------------------------------------------------------------- processes

    method Spawn() returns (id: Option<int>)
      modifies procs, this`log, this`mail
      ensures (View(), id) == KernelState.Spawn(old(View()))
    {
      var p := 0;
      while p < procs.Length
        invariant 0 <= p <= procs.Length
        invariant FreeSlot(procs[..], 0) == FreeSlot(procs[..], p)
      {
        if procs[p].state.Empty? {
          break;
        }
        p := p + 1;
      }
      if p >= procs.Length {
        return None;
      }
      procs[p] := procs[p].(state := New);
      log := log + [Spawned(p)];
      mail := mail + [Born(p)];
      return Some(p);
    }

    method Hatch(p: int, entry: nat, heap: nat) returns (oops: Option<Oops>)
      requires -1 <= last
      modifies procs, this`next
      ensures Follows(oops, View(), KernelState.Hatch(old(View()), p, entry, heap))
    {
      if p <= KERNEL_PROC_ID || p >= procs.Length {
        return Some(ProcIdOutOfRange);
      }
      if !procs[p].state.New? {
        return Some(HatchInBadState);
      }
      if entry == 0 {
        return Some(HatchWithoutEntry);
      }
      if heap == 0 {
        return Some(HatchWithoutHeap);
      }
      procs[p] := procs[p].(state := Ready);
      oops := DidHatch(p);
    }

    method Cleanup(p: int) returns (oops: Option<Oops>)
      modifies procs, mapped
      ensures Follows(oops, View(), KernelState.CleanupProc(old(View()), p))
    {
      if p <= KERNEL_PROC_ID || p >= procs.Length {
        return Some(ProcIdOutOfRange);
      }
      if procs[p].Alive() {
        return Some(CleanupOfLiveProcess);
      }
      procs[p] := EMPTY_PROC;
      if p < mapped.Length {
        mapped[p] := {};
      }
      return None;
    }

    method Stop(p: int) returns (oops: Option<Oops>)
      modifies procs, this`elapsed, this`todo
      ensures Follows(oops, View(), KernelState.Stop(old(View()), p))
    {
      if p <= KERNEL_PROC_ID || p >= procs.Length {
        return Some(ProcIdOutOfRange);
      }
      if !procs[p].Alive() {
        return Some(StopOfDeadProcess);
      }
      procs[p] := procs[p].(state := Finished);
      oops := Dispatch(ProcCleanup(p));
      if oops.None? {
        oops := StateDidChange();
      }
    }

    method Switch(p: int) returns (oops: Option<Oops>)
      modifies procs, this`kernel, this`current, this`resuming, this`log
      ensures Follows(oops, View(), KernelState.Switch(old(View()), p))
    {
      if p < 0 || p >= procs.Length {
        return Some(SwitchToInvalidId);
      }
      if !kernel.Running? {
        return Some(SwitchFromUser);
      }
      if !procs[p].state.Ready? {
        return Some(SwitchToUnready);
      }
      if procs[p].Locked() {
        return Some(SwitchToLocked);
      }
      kernel := Ready;
      procs[p] := procs[p].(state := Running);
      current := p;
      resuming := true;
      log := log + [Switched(p)];
      return None;
    }

    method SwitchToKernelIfNeeded(p: int) returns (oops: Option<Oops>)
      modifies procs, this`kernel, this`current
      ensures Follows(oops, View(), KernelState.SwitchToKernelIfNeeded(old(View()), p))
    {
      if kernel.Running? {
        return None;
      }
      if p < 0 || p >= procs.Length {
        return Some(LeaveInvalidId);
      }
      if !procs[p].state.Running? && !procs[p].state.Blocked? && !procs[p].state.Finished? {
        return Some(LeaveInvalidState);
      }
      if !kernel.Ready? {
        return Some(LeaveKernelNotReady);
      }
      kernel := Running;
      current := KERNEL_PROC_ID;
      if procs[p].state.Running? {
        procs[p] := procs[p].(state := Ready);
      }
      return None;
    }

    method OnKernelHandlingFinished() returns (oops: Option<Oops>)
      modifies procs, this`elapsed, this`kernel, this`current, this`resuming, this`log
      ensures Follows(oops, View(), KernelState.OnKernelHandlingFinished(old(View())))
    {
      if next < 0 {
        return None;
      }
      elapsed := 0;
      oops := Switch(next);
    }

    /** The end of every interrupt handler. */
    method IsrEnd() returns (oops: Option<Oops>)
      requires isr > 0
      modifies procs, this`isr, this`kernel, this`current
      ensures Follows(oops, View(), KernelState.Step(old(View()), KernelState.IsrEnd))
    {
      isr := isr - 1;
      if isr == 0 && (head.Some? || todo != []) {
        oops := SwitchToKernelIfNeeded(next);
      } else {
        oops := None;
      }
    }

    method CallbackInvoke(p: int, m: Message, bytes: nat) returns (oops: Option<Oops>, e: ProcError)
      modifies procs, loops, this`elapsed, this`todo, this`mail
      ensures FollowsWith(oops, View(), e, KernelState.CallbackInvoke(old(View()), p, m, bytes))
    {
      hide KernelState.UnlockProc, KernelState.StateDidChange;
      if p <= KERNEL_PROC_ID || p >= procs.Length || p >= loops.Length {
        return Some(ProcIdOutOfRange), PeNone;
      }
      if procs[p].state.Finished? {
        return None, PeIgnored;
      }
      if !procs[p].Alive() {
        return Some(CallbackIntoDeadProcess), PeNone;
      }
      if IsFull(loops[p]) {
        return None, PeLimitReached;
      }
      var token := |loops[p]|;
      loops[p] := Reserve(loops[p]);
      if bytes > DISPATCH_MAX_DATA_SIZE_BYTES {
        return Some(PayloadTooLarge), PeNone;
      }
      loops[p] := Fill(loops[p], token, m, bytes);
      mail := mail + [Delivered(m, p)];
      assert View() == old(View()).(loops := old(loops[..])[p := loops[p]], mail := mail);
      oops := Unlock(p, EventLock);
      if oops.None? {
        oops := StateDidChange();
      }
      e := PeNone;
    }

    // -------------------------------------------------------------- reply tokens

    method FreeReplyIndex() returns (token: nat)
      ensures token == FreeReply(replies[..], 0)
    {
      for index := 0 to replies.Length
        invariant FreeReply(replies[..], 0) == FreeReply(replies[..], index)
      {
        if replies[index].sender == NONE_PROC_ID {
          return index;
        }
      }
      return replies.Length;
    }

    method TakeToken(p: int, handler: int, bytes: nat) returns (oops: Option<Oops>, token: nat)
      modifies replies, procs, this`elapsed, this`todo
      ensures FollowsWith(oops, View(), token, KernelState.TakeToken(old(View()), p, handler, bytes))
    {
      token := FreeReplyIndex();
      if token >= replies.Length {
        return Some(ReplyTableFull), token;
      }
      replies[token] := Reply(p, handler, bytes);
      oops := Lock(p, IpcLock);
    }

    method FailReply(token: nat) returns (oops: Option<Oops>)
      requires token < replies.Length
      modifies replies, procs, this`elapsed, this`todo
      ensures Follows(oops, View(), KernelState.FailReply(old(View()), token))
    {
      if replies[token].handler == NONE_PROC_ID {
        return Some(FailOfEmptyToken);
      }
      var sender := replies[token].sender;
      if sender <= KERNEL_PROC_ID {
        return Some(ReplyToNobody);
      }
      replies[token] := NO_REPLY;
      oops := UnlockIfAble(sender);
    }

    // -------------------------------------------------------------- delivery

    method NextListenerIndex(path: string, start: nat) returns (index: nat)
      requires start <= listeners.Length
      ensures index == NextListener(listeners[..], path, start)
      ensures start <= index <= listeners.Length
    {
      index := start;
      while index < listeners.Length
        invariant start <= index <= listeners.Length
        invariant NextListener(listeners[..], path, start) == NextListener(listeners[..], path, index)
      {
        if Matches(path, listeners[index].path) {
          return;
        }
        index := index + 1;
      }
    }

    /** The lookup loop of a send (any owner, or a given one) and of a notification. */
    method ListenerIndex(path: string, any: bool, target: int) returns (index: nat)
      ensures index == FindListener(listeners[..], path, any, target, 0)
    {
      index := NextListenerIndex(path, 0);
      ghost var from := 0;
      while index < listeners.Length
        invariant 0 <= from <= index <= listeners.Length
        invariant index == NextListener(listeners[..], path, from)
        invariant FindListener(listeners[..], path, any, target, 0) == FindListener(listeners[..], path, any, target, from)
        decreases listeners.Length - index
      {
        if any || listeners[index].procId == target {
          return;
        }
        from := index + 1;
        index := NextListenerIndex(path, index + 1);
      }
    }

    method Deliver(l: Listener, source: int, bytes: nat, replyBytes: nat, token: nat) returns (oops: Option<Oops>, e: IpcError)
      modifies replies, procs, loops, this`elapsed, this`todo, this`mail
      ensures FollowsWith(oops, View(), e, KernelState.Deliver(old(View()), l, source, bytes, replyBytes, token))
    {
      var err: ProcError;
      oops, err := CallbackInvoke(l.procId, Message(source, token), QUERY_HEADER_BYTES + bytes);
      e := DeliveryError(l, err);
      if oops.None? && err != PeNone && replyBytes != 0 && token < replies.Length {
        replies[token] := NO_REPLY;
        oops := Dispatch(Task.UnlockIfAble(source));
      }
    }

    method NotifySessionDestroyed(target: int) returns (oops: Option<Oops>)
      modifies replies, procs, loops, this`elapsed, this`todo, this`mail
      ensures Follows(oops, View(), KernelState.NotifySessionDestroyed(old(View()), target))
    {
      var i := ListenerIndex(SESSION_DESTROYED, false, target);
      if i >= listeners.Length {
        return None;
      }
      var e: IpcError;
      oops, e := Deliver(listeners[i], KERNEL_PROC_ID, PROC_ID_BYTES, 0, replies.Length);
      if oops.None? && e != NoError {
        oops := Some(NotificationRefused);
      }
    }

    // -------------------------------------------------------------- bindings

    method Find(sender: int, receiver: int) returns (i: nat)
      ensures i == FindBinding(bindings[..], sender, receiver, 0)
      ensures i < bindings.Length ==> bindings[i].sender == sender && bindings[i].receiver == receiver
    {
      i := 0;
      while i < bindings.Length
        invariant 0 <= i <= bindings.Length
        invariant FindBinding(bindings[..], sender, receiver, 0) == FindBinding(bindings[..], sender, receiver, i)
      {
        if bindings[i].sender == sender && bindings[i].receiver == receiver {
          return;
        }
        i := i + 1;
      }
    }

    method DestroyBindingAt(i: nat, requester: int) returns (oops: Option<Oops>)
      requires i < bindings.Length
      modifies bindings, replies, procs, loops, this`elapsed, this`todo, this`mail
      ensures Follows(oops, View(), KernelState.DestroyBindingAt(old(View()), i, requester))
    {
      var b := bindings[i];
      oops := NotifySessionDestroyed(if b.receiver == requester then b.sender else b.receiver);
      if oops.None? {
        bindings[i] := NO_BINDING;
      }
    }

    method ApplyBind(peer: int, p: int, b: BindData) returns (oops: Option<Oops>, e: IpcError)
      modifies bindings, replies, procs, loops, this`elapsed, this`todo, this`log, this`mail
      ensures FollowsWith(oops, View(), e, KernelState.ApplyBind(old(View()), peer, p, b))
    {
      oops, e := None, NoError;
      match b.flag
      case NoBind =>
      case Bind =>
        var i := Find(NONE_PROC_ID, NONE_PROC_ID);
        if i >= bindings.Length {
          return None, Full;
        }
        bindings[i] := Binding(peer, p, b.permissions);
        log := log + [Granted(p, peer, b.permissions)];
      case Update =>
        var i := Find(peer, p);
        if i >= bindings.Length {
          return None, NotFound;
        }
        bindings[i] := bindings[i].(permissions := b.permissions);
        log := log + [Granted(p, peer, b.permissions)];
      case Unbind =>
        var i := Find(peer, p);
        if i >= bindings.Length {
          return None, NotFound;
        }
        oops := DestroyBindingAt(i, p);
    }

    method CleanBindings(p: int) returns (oops: Option<Oops>)
      modifies bindings, replies, procs, loops, this`elapsed, this`todo, this`mail
      ensures Follows(oops, View(), KernelState.CleanBindings(old(View()), p, 0))
    {
      for i := 0 to bindings.Length
        invariant KernelState.CleanBindings(old(View()), p, 0) == KernelState.CleanBindings(View(), p, i)
      {
        if bindings[i].sender == p {
          oops := DestroyBindingAt(i, p);
          if oops.Some? {
            return;
          }
        } else if bindings[i].receiver == p {
          bindings[i] := NO_BINDING;
        }
      }
      oops := None;
    }

    // -------------------------------------------------------------- IPC calls

    method Permitted(source: int, l: Listener) returns (granted: bool)
      ensures granted == KernelState.Permitted(bindings[..], source, l)
    {
      hide FindBinding, Includes;
      var i := Find(source, l.procId);
      granted := i < bindings.Length && Includes(bindings[i].permissions, l.mask);
    }

    method SendTo(p: int, l: Listener, q: Query) returns (oops: Option<Oops>, e: IpcError)
      modifies bindings, replies, procs, loops, this`elapsed, this`todo, this`log, this`mail
      ensures FollowsWith(oops, View(), e, KernelState.SendTo(old(View()), p, l, q))
    {
      hide KernelState.TakeToken, KernelState.Deliver, KernelState.ApplyBind;
      oops, e := None, NoError;
      var token := replies.Length;
      if q.replyBytes != 0 {
        oops, token := TakeToken(p, l.procId, q.replyBytes);
        if oops.Some? {
          return;
        }
      }
      oops, e := Deliver(l, p, q.bytes, q.replyBytes, token);
      if oops.Some? || e != NoError {
        return;
      }
      if l.bindingRequired {
        log := log + [BoundMessage(p, l.procId, l.mask)];
      }
      oops, e := ApplyBind(l.procId, p, q.bind);
    }

    method Send(p: int, q: Query) returns (oops: Option<Oops>, e: IpcError)
      modifies bindings, replies, procs, loops, this`elapsed, this`todo, this`log, this`mail
      ensures FollowsWith(oops, View(), e, KernelState.Send(old(View()), p, q))
    {
      hide KernelState.SendTo, KernelState.Permitted;
      if q.path == [] || |q.path| > MAX_LENGTH {
        return None, InvalidPath;
      }
      if !GlobalPath(q.path) && !DirectPath(q.path) {
        return None, InvalidPath;
      }
      var i := ListenerIndex(q.path, GlobalPath(q.path), q.target);
      if i >= listeners.Length {
        return None, NoError;
      }
      var l := listeners[i];
      if !l.bindingRequired && DirectPath(q.path) {
        return None, InvalidParameter;
      }
      if l.bindingRequired {
        var granted := Permitted(p, l);
        if !granted {
          return None, Forbidden;
        }
      }
      oops, e := SendTo(p, l, q);
    }

    method SendReply(p: int, r: ReplyInfo) returns (oops: Option<Oops>, e: IpcError)
      modifies bindings, replies, procs, loops, this`elapsed, this`todo, this`log, this`mail
      ensures FollowsWith(oops, View(), e, KernelState.SendReply(old(View()), p, r))
    {
      hide KernelState.ApplyBind, KernelState.UnlockProcIfAble;
      if r.bytes == 0 || r.token >= replies.Length {
        return None, InvalidParameter;
      }
      if replies[r.token].handler == NONE_PROC_ID {
        return None, NotFound;
      }
      if replies[r.token].handler != p {
        return None, Forbidden;
      }
      if replies[r.token].bytes != r.bytes {
        return None, InvalidParameter;
      }
      if replies[r.token].sender <= KERNEL_PROC_ID {
        return Some(ReplyToNobody), Unknown;
      }
      oops, e := ApplyBind(replies[r.token].sender, p, r.bind);
      if oops.Some? || e != NoError {
        return;
      }
      var sender := replies[r.token].sender;
      replies[r.token] := NO_REPLY;
      oops := UnlockIfAble(sender);
    }

    method FreeListenerIndex() returns (index: nat)
      ensures index == FreeListener(listeners[..], 0)
    {
      for i := 0 to listeners.Length
        invariant FreeListener(listeners[..], 0) == FreeListener(listeners[..], i)
      {
        if listeners[i].procId == NONE_PROC_ID {
          return i;
        }
      }
      return listeners.Length;
    }

    method ReceivesKernelNotifications(p: int) returns (receives: bool)
      ensures receives == KernelState.ReceivesKernelNotifications(listeners[..], p)
    {
      for i := 0 to listeners.Length
        invariant forall k :: 0 <= k < i ==> listeners[k].procId != p || listeners[k].path != SESSION_DESTROYED
      {
        if listeners[i].procId == p && listeners[i].path == SESSION_DESTROYED {
          assert listeners[..][i].procId == p;
          return true;
        }
      }
      return false;
    }

    method Register(p: int, r: Registration) returns (oops: Option<Oops>, e: IpcError)
      modifies listeners
      ensures FollowsWith(oops, View(), e, KernelState.Register(old(View()), p, r))
    {
      var Registration(path, handler, decoder, bindingRequired, mask) := r;
      if p <= KERNEL_PROC_ID {
        return None, InvalidParameter;
      }
      if path == [] || |path| > MAX_LENGTH {
        return None, InvalidPath;
      }
      if !handler || !decoder {
        return None, InvalidParameter;
      }
      if !bindingRequired && mask != 0 {
        return None, InvalidParameter;
      }
      if !GlobalPath(path) && !DirectPath(path) && !NotificationPath(path) {
        return None, InvalidPath;
      }
      if DirectPath(path) && !bindingRequired {
        return None, InvalidParameter;
      }
      if NotificationPath(path) && bindingRequired {
        return None, InvalidParameter;
      }
      if bindingRequired {
        var receives := ReceivesKernelNotifications(p);
        if !receives {
          return None, PreconditionNotSatisfied;
        }
      }
      if GlobalPath(path) {
        var taken := NextListenerIndex(path, 0);
        if taken < listeners.Length {
          return None, AlreadyExists;
        }
      }
      var index := FreeListenerIndex();
      if index >= listeners.Length {
        return Some(ListenerTableFull), Unknown;
      }
      listeners[index] := Listener(p, path, bindingRequired, mask);
      return None, NoError;
    }

    // -------------------------------------------------------------- cleanup of a dead process

    method ClearListeners(p: int)
      modifies listeners
      ensures listeners[..] == WithoutListenersOf(old(listeners[..]), p)
    {
      for i := 0 to listeners.Length
        invariant forall k :: 0 <= k < i ==> listeners[k] == WithoutListenersOf(old(listeners[..]), p)[k]
        invariant forall k :: i <= k < listeners.Length ==> listeners[k] == old(listeners[k])
      {
        if listeners[i].procId == p {
          listeners[i] := NO_LISTENER;
        }
      }
    }

    method CleanTokens(p: int) returns (oops: Option<Oops>)
      modifies replies, procs, this`elapsed, this`todo
      ensures Follows(oops, View(), KernelState.CleanTokens(old(View()), p, 0))
    {
      for token := 0 to replies.Length
        invariant KernelState.CleanTokens(old(View()), p, 0) == KernelState.CleanTokens(View(), p, token)
      {
        if replies[token].handler == p {
          oops := FailReply(token);
          if oops.Some? {
            return;
          }
        } else if replies[token].sender == p {
          replies[token] := NO_REPLY;
        }
      }
      oops := None;
    }

    method CleanIpc(p: int) returns (oops: Option<Oops>)
      modifies listeners, bindings, replies, procs, loops, this`elapsed, this`todo, this`mail
      ensures Follows(oops, View(), KernelState.CleanIpc(old(View()), p))
    {
      ClearListeners(p);
      oops := CleanTokens(p);
      if oops.None? {
        oops := CleanBindings(p);
      }
    }

    method CleanDevices(p: int)
      modifies devices
      ensures View() == KernelState.CleanDevices(old(View()), p)
    {
      for i := 0 to devices.Length
        invariant forall k :: 0 <= k < i ==> devices[k] == KernelState.CleanDevices(old(View()), p).devices[k]
        invariant forall k :: i <= k < devices.Length ==> devices[k] == old(devices[k])
      {
        if devices[i].holder == p {
          devices[i] := Released(devices[i]);
        }
      }
      assert devices[..] == KernelState.CleanDevices(old(View()), p).devices;
    }

    method CleanRunLoop(p: int) returns (oops: Option<Oops>)
      modifies loops, this`mail
      ensures Follows(oops, View(), KernelState.CleanRunLoop(old(View()), p))
    {
      if !(0 <= p < loops.Length) {
        return Some(ProcIdOutOfRange);
      }
      loops[p] := [];
      mail := mail + [Gone(p)];
      return None;
    }

    // -------------------------------------------------------------- devices

    method Acquire(p: int, d: nat) returns (oops: Option<Oops>, e: DevError)
      modifies devices
      ensures FollowsWith(oops, View(), e, KernelState.Acquire(old(View()), p, d))
    {
      if d >= devices.Length {
        return Some(DeviceInvalid), DevUnknown;
      }
      if !(0 <= p < procs.Length) {
        return Some(ProcIdOutOfRange), DevUnknown;
      }
      if !procs[p].state.Running? {
        return Some(DeviceCallerNotRunning), DevUnknown;
      }
      if devices[d].holder != NONE_PROC_ID {
        return None, AlreadyHeld;
      }
      devices[d] := devices[d].(holder := p);
      return None, DevNone;
    }

    method Release(p: int, d: nat) returns (oops: Option<Oops>)
      modifies devices
      ensures Follows(oops, View(), KernelState.Release(old(View()), p, d))
    {
      if d >= devices.Length {
        return Some(DeviceInvalid);
      }
      if devices[d].holder == p {
        devices[d] := Released(devices[d]);
      }
      return None;
    }

    method Listen(p: int, d: nat, listener: bool, decoder: bool) returns (oops: Option<Oops>, e: DevError)
      modifies devices
      ensures FollowsWith(oops, View(), e, KernelState.Listen(old(View()), p, d, listener, decoder))
    {
      if !listener {
        return None, ListenerInvalid;
      }
      if !decoder {
        return None, DecoderInvalid;
      }
      if d >= devices.Length {
        return None, DevUnknown;
      }
      if !(0 <= p < procs.Length) {
        return Some(ProcIdOutOfRange), DevUnknown;
      }
      if !procs[p].state.Running? {
        return Some(DeviceCallerNotRunning), DevUnknown;
      }
      if devices[d].holder != p {
        return None, HandleInvalid;
      }
      if !devices[d].started {
        return None, DevStateInvalid;
      }
      if devices[d].listening {
        return None, AlreadySet;
      }
      devices[d] := devices[d].(listening := true);
      return None, DevNone;
    }

    method Emit(d: nat, bytes: nat) returns (oops: Option<Oops>, e: DevError)
      modifies procs, loops, this`elapsed, this`todo, this`mail
      ensures FollowsWith(oops, View(), e, KernelState.Emit(old(View()), d, bytes))
    {
      hide KernelState.CallbackInvoke;
      if d >= devices.Length {
        return Some(DeviceInvalid), DevUnknown;
      }
      if !devices[d].started {
        return None, DevStateInvalid;
      }
      if !devices[d].listening {
        return None, DevNotFound;
      }
      if devices[d].holder == NONE_PROC_ID {
        return Some(ListenerWithoutHolder), DevUnknown;
      }
      var err: ProcError;
      oops, err := CallbackInvoke(devices[d].holder, Message(KERNEL_PROC_ID, replies.Length), EVENT_HEADER_BYTES + bytes);
      e := EmitError(err);
    }

    // -------------------------------------------------------------- deferred tasks

    method WaitForEventIfIdle(p: int) returns (oops: Option<Oops>)
      modifies procs, this`elapsed, this`todo
      ensures Follows(oops, View(), KernelState.WaitForEventIfIdle(old(View()), p))
    {
      if !(0 <= p < loops.Length) {
        return Some(ProcIdOutOfRange);
      }
      if IsEmpty(loops[p]) {
        oops := Lock(p, EventLock);
      } else {
        oops := None;
      }
    }

    method StartImage(image: Image) returns (oops: Option<Oops>)
      requires -1 <= last
      modifies procs, mapped, this`next, this`log, this`mail
      ensures Follows(oops, View(), KernelState.StartImage(old(View()), image))
    {
      hide KernelState.Spawn, KernelState.Hatch, KernelState.CleanupProc;
      if image.NotLoaded? {
        return None;
      }
      var id := Spawn();
      if id.None? {
        return None;
      }
      if image.Faulty? {
        return Some(ImageRejected);
      }
      var p := id.value;
      if 0 <= p < mapped.Length {
        mapped[p] := image.pages;
      }
      if image.NoStack? {
        oops := Cleanup(p);
      } else {
        oops := Hatch(p, image.entry, image.heap);
      }
    }

    method Bye(p: int) returns (oops: Option<Oops>)
      modifies procs, this`elapsed, this`todo
      ensures Follows(oops, View(), KernelState.Bye(old(View()), p))
    {
      hide KernelState.Stop;
      oops := Dispatch(DevCleanup(p));
      if oops.None? {
        oops := Dispatch(IpcCleanup(p));
      }
      if oops.None? {
        oops := Dispatch(RunLoopCleanup(p));
      }
      if oops.None? {
        oops := Stop(p);
      }
    }

    method RunTask(t: Task, image: Image) returns (oops: Option<Oops>)
      requires -1 <= last
      modifies this, procs, loops, mapped, listeners, replies, bindings, devices
      ensures Follows(oops, View(), KernelState.RunTask(old(View()), t, image))
    {
      hide KernelState.StartImage, KernelState.UnlockProcIfAble, KernelState.WaitForEventIfIdle,
           KernelState.CleanDevices, KernelState.CleanIpc, KernelState.CleanRunLoop, KernelState.CleanupProc;
      match t
      case Evaluate => Select(); oops := None;
      case UnlockIfAble(p) => oops := UnlockIfAble(p);
      case WaitForEvent(p) => oops := WaitForEventIfIdle(p);
      case Start(p) => oops := StartImage(image);
      case DevCleanup(p) => CleanDevices(p); oops := None;
      case IpcCleanup(p) => oops := CleanIpc(p);
      case RunLoopCleanup(p) => oops := CleanRunLoop(p);
      case ProcCleanup(p) => oops := Cleanup(p);
    }

    /** One round of the queue loop: the head is run, and stays in its slot until it is popped. */
    method RunHead(image: Image) returns (oops: Option<Oops>)
      requires -1 <= last && Enabled(View(), Action.RunHead(image))
      modifies this, procs, loops, mapped, listeners, replies, bindings, devices
      ensures Follows(oops, View(), Step(old(View()), Action.RunHead(image)))
    {
      hide KernelState.RunTask;
      var t := todo[0];
      oops := RunTask(t, image);
      if oops.None? {
        head := Some(t);
        todo := if todo == [] then [] else todo[1..];
      }
    }

    // -------------------------------------------------------------- system calls

    /** The oldest entry leaves the run loop once both its item and its data were collected. */
    method FinishIfNeeded(p: int)
      requires 0 <= p < loops.Length && loops[p] != [] && loops[p][0].Filled?
      modifies loops, this`mail
      ensures var e := old(loops[p])[0];
              View() == WithLoop(old(View()), p, if e.handled && e.dataHandled then old(loops[p])[1..] else old(loops[p]))
    {
      if !loops[p][0].handled || !loops[p][0].dataHandled {
        assert loops[..] == old(loops[..])[p := loops[p]];
        return;
      }
      loops[p] := loops[p][1..];
      mail := mail + [Collected(p)];
      assert loops[..] == old(loops[..])[p := loops[p]];
    }

    /** The oldest message, once; it stays in the run loop as long as its data were not collected. */
    method GetItem(p: int) returns (fetch: Fetch, item: Option<Message>)
      requires 0 <= p < loops.Length
      modifies loops, this`mail
      ensures fetch.Nothing? <==> old(loops[p]) == [] || old(loops[p])[0].Reserved?
      ensures fetch.WrongState? <==> old(loops[p]) != [] && old(loops[p])[0].Filled? && old(loops[p])[0].handled
      ensures !fetch.Fetched? ==> item.None? && View() == old(View())
      ensures fetch.Fetched? ==>
        var e := old(loops[p])[0];
        && item == Some(e.item)
        && View() == WithLoop(old(View()), p, if e.dataHandled then old(loops[p])[1..] else old(loops[p])[0 := e.(handled := true)])
    {
      if loops[p] == [] || loops[p][0].Reserved? {
        return Nothing, None;
      }
      if loops[p][0].handled {
        return WrongState, None;
      }
      item := Some(loops[p][0].item);
      loops[p] := loops[p][0 := loops[p][0].(handled := true)];
      ghost var marked := loops[p];
      assert loops[..] == old(loops[..])[p := marked];
      FinishIfNeeded(p);
      assert marked[1..] == old(loops[p])[1..];
      fetch := Fetched;
    }

    /** The data of the oldest message, once, after the message itself; with them it leaves the run loop. */
    method GetData(p: int) returns (fetch: Fetch, size: nat)
      requires 0 <= p < loops.Length
      modifies loops, this`mail
      ensures fetch.Nothing? <==> old(loops[p]) == [] || old(loops[p])[0].Reserved?
      ensures fetch.Fetched? <==>
        old(loops[p]) != [] && old(loops[p])[0].Filled? && old(loops[p])[0].handled && !old(loops[p])[0].dataHandled
      ensures !fetch.Fetched? ==> size == 0 && View() == old(View())
      ensures fetch.Fetched? ==>
        size == old(loops[p])[0].size && View() == WithLoop(old(View()), p, old(loops[p])[1..])
    {
      if loops[p] == [] || loops[p][0].Reserved? {
        return Nothing, 0;
      }
      if !loops[p][0].handled || loops[p][0].dataHandled {
        return WrongState, 0;
      }
      size := loops[p][0].size;
      loops[p] := loops[p][0 := loops[p][0].(dataHandled := true)];
      ghost var marked := loops[p];
      assert loops[..] == old(loops[..])[p := marked];
      FinishIfNeeded(p);
      assert marked[1..] == old(loops[p])[1..];
      fetch := Fetched;
    }

    /** Either of the two, as the system calls use them. */
    method Collect(p: int, data: bool)
      requires 0 <= p < loops.Length
      modifies loops, this`mail
      ensures View() == WithLoop(old(View()), p, if data then FetchData(old(loops[p])).1 else FetchItem(old(loops[p])).1)
    {
      hide FetchItem, FetchData;
      FetchIs(loops[p]);
      assert loops[..][p := loops[p]] == loops[..];
      if data {
        var fetch, size := GetData(p);
      } else {
        var fetch, item := GetItem(p);
      }
    }

    /** Pages of the process are given back one by one. */
    method MemThx(p: int, page: int) returns (oops: Option<Oops>)
      requires 0 <= p < loops.Length && p < mapped.Length
      modifies mapped
      ensures Follows(oops, View(), KernelState.Perform(old(View()), p, CallMemThx(page)))
    {
      if page == 0 {
        return None;
      }
      if page !in mapped[p] {
        return Some(PageNotMapped);
      }
      mapped[p] := mapped[p] - {page};
      return None;
    }

    method Perform(p: int, call: Syscall) returns (oops: Option<Oops>)
      requires 0 <= p < loops.Length && p < mapped.Length
      modifies this, procs, loops, mapped, listeners, replies, bindings, devices
      ensures Follows(oops, View(), KernelState.Perform(old(View()), p, call))
    {
      hide KernelState.Dispatch, KernelState.StateDidChange, KernelState.Bye, KernelState.Send, KernelState.SendReply,
           KernelState.Register, KernelState.Acquire, KernelState.Release, KernelState.Listen, FetchItem, FetchData, WithLoop;
      oops := None;
      var e, dev;
      match call
      case CallStart => oops := Dispatch(Start(p));
      case CallBye => oops := Bye(p);
      case CallFug => oops := Bye(p);
      case CallWaitForEvent => oops := Dispatch(WaitForEvent(p));
      case CallYield => oops := StateDidChange();
      case CallSend(q) => oops, e := Send(p, q);
      case CallReply(r) => oops, e := SendReply(p, r);
      case CallRegister(r) => oops, e := Register(p, r);
      case CallAcquire(d) => oops, dev := Acquire(p, d);
      case CallRelease(d) => oops := Release(p, d);
      case CallListen(d, l, dec) => oops, dev := Listen(p, d, l, dec);
      case CallGetItem => Collect(p, false);
      case CallGetData => Collect(p, true);
      case CallMemPlz(pages) => mapped[p] := mapped[p] + pages;
      case CallMemThx(page) => oops := MemThx(p, page);
    }

    /** One step of the machine. */
    method Take(a: Action) returns (oops: Option<Oops>)
      requires -1 <= last && Enabled(View(), a)
      modifies this, procs, loops, mapped, listeners, replies, bindings, devices
      ensures Follows(oops, View(), Step(old(View()), a))
    {
      hide KernelState.StartImage, KernelState.Perform, KernelState.OnTick, KernelState.Emit,
           KernelState.SwitchToKernelIfNeeded, KernelState.RunTask, KernelState.OnKernelHandlingFinished;
      oops := None;
      var e;
      match a
      case Startup(image) => oops := StartImage(image);
      case StartQueue => queueRunning := true;
      case Call(call) => isr := 1; oops := Perform(current, call);
      case Tick => isr := 1; oops := OnTick();
      case DeviceIrq(d, bytes) => isr := 1; oops, e := Emit(d, bytes);
      case OtherIsr => isr := 1;
      case IsrEnd => oops := IsrEnd();
      case RunHead(image) => oops := RunHead(image);
      case PopHead => head := None;
      case Idle => oops := OnKernelHandlingFinished();
      case Return => last := next; resuming := false;
    }

    predicate CanTake(a: Action)
      reads this, loops, mapped, devices
    {
      match a
      case Startup(_) => !queueRunning && isr == 0
      case StartQueue => !queueRunning && isr == 0
      case Call(_) => !kernel.Running? && isr == 0 && 0 <= current < loops.Length && current < mapped.Length
      case Tick => isr == 0
      case DeviceIrq(d, _) => isr == 0 && d < devices.Length
      case OtherIsr => isr == 0
      case IsrEnd => isr > 0
      case RunHead(_) => kernel.Running? && isr == 0 && queueRunning && !resuming && head.None? && todo != []
      case PopHead => kernel.Running? && isr == 0 && head.Some?
      case Idle => kernel.Running? && isr == 0 && queueRunning && !resuming && head.None? && todo == []
      case Return => kernel.Running? && isr == 0 && resuming
    }

    /** A whole run: the tables go through the states described, and stay sound; a halt has one of the excuses. */
    method Run(actions: seq<Action>) returns (oops: Option<Oops>)
      requires KernelInvariant.Inv(View())
      modifies this, procs, loops, mapped, listeners, replies, bindings, devices
      ensures Follows(oops, View(), Execute(old(View()), actions))
      ensures oops.None? ==> KernelInvariant.Inv(View())
      ensures oops.Some? ==> KernelCalls.Excused(oops.value)
    {
      hide KernelInvariant.Inv, Step, KernelCalls.Excused;
      for i := 0 to |actions|
        invariant KernelInvariant.Inv(View())
        invariant Execute(old(View()), actions) == Execute(View(), actions[i..])
      {
        assert actions[i..][0] == actions[i] && actions[i..][1..] == actions[i + 1..];
        if CanTake(actions[i]) {
          KernelRuns.StepKeeps(View(), actions[i]);
          LastIsInRange(View());
          oops := Take(actions[i]);
          if oops.Some? {
            return;
          }
        }
      }
      oops := None;
    }
  }

  lemma LastIsInRange(s: State)
    requires KernelInvariant.Inv(s)
    ensures -1 <= s.last
  {
  }

  /** What is left of a run loop after reading from it. */
  lemma FetchIs(f: Fifo<Message>)
    ensures FetchItem(f).1 ==
            if IsEmpty(f) || f[0].handled then f else if f[0].dataHandled then f[1..] else f[0 := f[0].(handled := true)]
    ensures FetchData(f).1 == if IsEmpty(f) || !f[0].handled || f[0].dataHandled then f else f[1..]
  {
  }
}
