/** The tables of the kernel, and what each kernel function does to them. */
module KernelState {
  import opened Outcomes
  import opened RunLoopSpec
  import opened IpcPath

  const KERNEL_PROC_ID: int := -1
  const NONE_PROC_ID: int := -2

  const MAX_QUEUE_LENGTH: nat := 64
  const GRANULARITY_MS: nat := 30000

  /** Bytes taken by the encoded header of an IPC message and of a device event. */
  const QUERY_HEADER_BYTES: nat := 28
  const EVENT_HEADER_BYTES: nat := 8
  const PROC_ID_BYTES: nat := 4

  // ---------------------------------------------------------------- tables

  datatype ProcState = Empty | New | Ready | Running | Blocked | Finished

  datatype Lock = EventLock | IpcLock

  /** A process slot; the lock mask is its two bits. */
  datatype Proc = Proc(state: ProcState, event: bool, ipc: bool) {
    function With(l: Lock): Proc {
      if l.EventLock? then this.(event := true) else this.(ipc := true)
    }

    function Without(l: Lock): Proc {
      if l.EventLock? then this.(event := false) else this.(ipc := false)
    }

    predicate Locked() {
      event || ipc
    }

    predicate Alive() {
      state.Ready? || state.Running? || state.Blocked?
    }
  }

  const EMPTY_PROC := Proc(Empty, false, false)

  datatype Task =
    | Evaluate
    | UnlockIfAble(p: int)
    | WaitForEvent(p: int)
    | Start(p: int)
    | DevCleanup(p: int)
    | IpcCleanup(p: int)
    | RunLoopCleanup(p: int)
    | ProcCleanup(p: int)

  datatype Message = Message(source: int, token: nat)

  datatype Listener = Listener(procId: int, path: string, bindingRequired: bool, mask: bv32)
  const NO_LISTENER := Listener(NONE_PROC_ID, "", false, 0)

  datatype Reply = Reply(sender: int, handler: int, bytes: nat)
  const NO_REPLY := Reply(NONE_PROC_ID, NONE_PROC_ID, 0)

  datatype Binding = Binding(sender: int, receiver: int, permissions: bv32)
  const NO_BINDING := Binding(NONE_PROC_ID, NONE_PROC_ID, 0)

  /** An installed device; `listening` says that both listener and decoder are set. */
  datatype Device = Device(started: bool, holder: int, listening: bool)

  /** What happened so far, oldest first: nothing in the kernel reads it. */
  datatype Event =
    | Spawned(p: int)
    | Granted(granter: int, grantee: int, permissions: bv32)
    | BoundMessage(source: int, target: int, mask: bv32)
    | Switched(p: int)

  /** What went into the run loops and came out, and the lives they belong to: nothing in the kernel reads it. */
  datatype Mail =
    | Born(p: int)
    | Gone(p: int)
    | Delivered(message: Message, target: int)
    | Collected(p: int)

  /**
    * The whole kernel. The deferred-task queue is `head` (run, but still in its slot) followed by `todo`.
    * `resuming` says that k_proc_switch has not returned yet.
    */
  datatype State = State(
    procs: seq<Proc>, kernel: ProcState, current: int,
    last: int, next: int, elapsed: nat, resuming: bool,
    queueRunning: bool, head: Option<Task>, todo: seq<Task>, isr: nat,
    loops: seq<Fifo<Message>>, mapped: seq<set<int>>,
    listeners: seq<Listener>, replies: seq<Reply>, bindings: seq<Binding>, devices: seq<Device>,
    log: seq<Event>, mail: seq<Mail>)

  predicate IsUser(procs: seq<Proc>, p: int) {
    0 <= p < |procs|
  }

  function QueueLength(s: State): nat {
    |s.todo| + if s.head.Some? then 1 else 0
  }

  // ---------------------------------------------------------------- queue and scheduler

  function Dispatch(s: State, t: Task): Outcome<State> {
    if !s.queueRunning then Halt(QueueNotRunning)
    else if QueueLength(s) >= MAX_QUEUE_LENGTH then Halt(QueueFull)
    else Ok(s.(todo := s.todo + [t]))
  }

  function StateDidChange(s: State): Outcome<State> {
    Dispatch(s.(elapsed := GRANULARITY_MS), Evaluate)
  }

  function Candidate(n: nat, last: int, i: nat): int
    requires n > 0
  {
    (last + i + 1) % n
  }

  /** Round robin: the first ready process met from the i-th candidate on. */
  function SelectFrom(procs: seq<Proc>, last: int, i: nat): int
    decreases |procs| - i
  {
    if i >= |procs| then KERNEL_PROC_ID
    else if procs[Candidate(|procs|, last, i)].state.Ready? then Candidate(|procs|, last, i)
    else SelectFrom(procs, last, i + 1)
  }

  function ProcSelect(procs: seq<Proc>, last: int): int {
    SelectFrom(procs, last, 0)
  }

  function OnTick(s: State): Outcome<State> {
    if s.elapsed >= GRANULARITY_MS then Ok(s)
    else
      var s1 := s.(elapsed := s.elapsed + 1);
      if s1.elapsed < GRANULARITY_MS then Ok(s1) else Dispatch(s1, Evaluate)
  }

  function DidHatch(s: State, p: int): Outcome<State> {
    if !IsUser(s.procs, p) || !s.procs[p].state.Ready? then Halt(HatchedNotReady)
    else if s.next < 0 then Ok(s.(next := ProcSelect(s.procs, s.last)))
    else Ok(s)
  }

  // ---------------------------------------------------------------- processes

  function SetProc(s: State, p: int, q: Proc): State
    requires IsUser(s.procs, p)
  {
    s.(procs := s.procs[p := q])
  }

  function LockProc(s: State, p: int, l: Lock): Outcome<State> {
    if !IsUser(s.procs, p) then Halt(ProcIdOutOfRange)
    else
      var q := s.procs[p].With(l);
      if q.state.Blocked? then Ok(SetProc(s, p, q))
      else if !q.state.Ready? && !q.state.Running? then Halt(LockInBadState)
      else StateDidChange(SetProc(s, p, q.(state := Blocked)))
  }

  function UnlockProc(s: State, p: int, l: Lock): Outcome<State> {
    if !IsUser(s.procs, p) then Halt(ProcIdOutOfRange)
    else
      var q := s.procs[p].Without(l);
      if !q.state.Blocked? || q.Locked() then Ok(SetProc(s, p, q))
      else StateDidChange(SetProc(s, p, q.(state := Ready)))
  }

  /** The lowest empty slot, from the i-th on; the table size if there is none. */
  function FreeSlot(procs: seq<Proc>, i: nat): nat
    requires i <= |procs|
    decreases |procs| - i
  {
    if i == |procs| || procs[i].state.Empty? then i else FreeSlot(procs, i + 1)
  }

  /** The new process identifier, or none when the limit is reached. */
  function Spawn(s: State): (State, Option<int>) {
    var p := FreeSlot(s.procs, 0);
    if p >= |s.procs| then (s, None)
    else (SetProc(s, p, s.procs[p].(state := New)).(log := s.log + [Spawned(p)], mail := s.mail + [Born(p)]), Some(p))
  }

  function Hatch(s: State, p: int, entry: nat, heap: nat): Outcome<State> {
    if !IsUser(s.procs, p) then Halt(ProcIdOutOfRange)
    else if !s.procs[p].state.New? then Halt(HatchInBadState)
    else if entry == 0 then Halt(HatchWithoutEntry)
    else if heap == 0 then Halt(HatchWithoutHeap)
    else DidHatch(SetProc(s, p, s.procs[p].(state := Ready)), p)
  }

  function CleanupProc(s: State, p: int): Outcome<State> {
    if !IsUser(s.procs, p) then Halt(ProcIdOutOfRange)
    else if s.procs[p].Alive() then Halt(CleanupOfLiveProcess)
    else Ok(SetProc(s, p, EMPTY_PROC).(mapped := if p < |s.mapped| then s.mapped[p := {}] else s.mapped))
  }

  function Stop(s: State, p: int): Outcome<State> {
    if !IsUser(s.procs, p) then Halt(ProcIdOutOfRange)
    else if !s.procs[p].Alive() then Halt(StopOfDeadProcess)
    else
      var s1 :- Dispatch(SetProc(s, p, s.procs[p].(state := Finished)), ProcCleanup(p));
      StateDidChange(s1)
  }

  function Switch(s: State, p: int): Outcome<State> {
    if p < 0 || p >= |s.procs| then Halt(SwitchToInvalidId)
    else if !s.kernel.Running? then Halt(SwitchFromUser)
    else if !s.procs[p].state.Ready? then Halt(SwitchToUnready)
    else if s.procs[p].Locked() then Halt(SwitchToLocked)
    else Ok(SetProc(s, p, s.procs[p].(state := Running))
            .(kernel := Ready, current := p, resuming := true, log := s.log + [Switched(p)]))
  }

  function SwitchToKernelIfNeeded(s: State, p: int): Outcome<State> {
    if s.kernel.Running? then Ok(s)
    else if p < 0 || p >= |s.procs| then Halt(LeaveInvalidId)
    else if !s.procs[p].state.Running? && !s.procs[p].state.Blocked? && !s.procs[p].state.Finished? then
      Halt(LeaveInvalidState)
    else if !s.kernel.Ready? then Halt(LeaveKernelNotReady)
    else
      var q := s.procs[p];
      Ok(SetProc(s, p, if q.state.Running? then q.(state := Ready) else q)
         .(kernel := Running, current := KERNEL_PROC_ID))
  }

  /** The part of the idle loop that hands the processor over. */
  function OnKernelHandlingFinished(s: State): Outcome<State> {
    if s.next < 0 then Ok(s) else Switch(s.(elapsed := 0), s.next)
  }

  /** The statement after k_proc_switch, reached when the kernel gets the processor back. */
  function Resume(s: State): State {
    s.(last := s.next, resuming := false)
  }

  datatype ProcError = PeNone | PeIgnored | PeLimitReached

  function CallbackInvoke(s: State, p: int, m: Message, bytes: nat): Outcome<(State, ProcError)> {
    if !IsUser(s.procs, p) || p >= |s.loops| then Halt(ProcIdOutOfRange)
    else if s.procs[p].state.Finished? then Ok((s, PeIgnored))
    else if !s.procs[p].Alive() then Halt(CallbackIntoDeadProcess)
    else if IsFull(s.loops[p]) then Ok((s, PeLimitReached))
    else if bytes > DISPATCH_MAX_DATA_SIZE_BYTES then Halt(PayloadTooLarge)
    else
      var f := Fill(Reserve(s.loops[p]), |s.loops[p]|, m, bytes);
      var s1 :- UnlockProc(s.(loops := s.loops[p := f], mail := s.mail + [Delivered(m, p)]), p, EventLock);
      var s2 :- StateDidChange(s1);
      Ok((s2, PeNone))
  }

  // ---------------------------------------------------------------- reply tokens

  function FreeReply(replies: seq<Reply>, i: nat): nat
    requires i <= |replies|
    decreases |replies| - i
  {
    if i == |replies| || replies[i].sender == NONE_PROC_ID then i else FreeReply(replies, i + 1)
  }

  predicate OwnsToken(replies: seq<Reply>, p: int) {
    exists i :: 0 <= i < |replies| && replies[i].sender == p
  }

  function UnlockProcIfAble(s: State, p: int): Outcome<State> {
    if OwnsToken(s.replies, p) then Ok(s) else UnlockProc(s, p, IpcLock)
  }

  /** Clearing a token and letting its sender go on. */
  function ReleaseToken(s: State, token: nat): Outcome<State>
    requires token < |s.replies|
  {
    UnlockProcIfAble(s.(replies := s.replies[token := NO_REPLY]), s.replies[token].sender)
  }

  /** Takes a token for a message that wants a reply, and blocks its sender. */
  function TakeToken(s: State, p: int, handler: int, bytes: nat): Outcome<(State, nat)> {
    var token := FreeReply(s.replies, 0);
    if token >= |s.replies| then Halt(ReplyTableFull)
    else
      var s1 :- LockProc(s.(replies := s.replies[token := Reply(p, handler, bytes)]), p, IpcLock);
      Ok((s1, token))
  }

  function FailReply(s: State, token: nat): Outcome<State>
    requires token < |s.replies|
  {
    if s.replies[token].handler == NONE_PROC_ID then Halt(FailOfEmptyToken)
    else if s.replies[token].sender <= KERNEL_PROC_ID then Halt(ReplyToNobody)
    else ReleaseToken(s, token)
  }

  // ---------------------------------------------------------------- delivery

  datatype IpcError =
    | NoError | InvalidPath | InvalidParameter | AlreadyExists | NotFound
    | Ignored | Forbidden | Full | PreconditionNotSatisfied | Unknown

  function NextListener(listeners: seq<Listener>, path: string, i: nat): nat
    requires i <= |listeners|
    decreases |listeners| - i
  {
    if i == |listeners| || Matches(path, listeners[i].path) then i else NextListener(listeners, path, i + 1)
  }

  /** The first listener on the path, from the i-th on, that belongs to the target; any owner will do when `any`. */
  function FindListener(listeners: seq<Listener>, path: string, any: bool, target: int, i: nat): nat
    requires i <= |listeners|
    decreases |listeners| - i
  {
    var j := NextListener(listeners, path, i);
    if j >= |listeners| || j < i then |listeners|
    else if any || listeners[j].procId == target then j
    else FindListener(listeners, path, any, target, j + 1)
  }

  function DeliveryError(l: Listener, e: ProcError): IpcError {
    match e
    case PeNone => NoError
    case PeIgnored => if NotificationPath(l.path) then Unknown else Ignored
    case PeLimitReached => Full
  }

  function Deliver(s: State, l: Listener, source: int, bytes: nat, replyBytes: nat, token: nat): Outcome<(State, IpcError)> {
    var (s1, e) :- CallbackInvoke(s, l.procId, Message(source, token), QUERY_HEADER_BYTES + bytes);
    if e != PeNone && replyBytes != 0 && token < |s1.replies| then
      var s2 :- Dispatch(s1.(replies := s1.replies[token := NO_REPLY]), UnlockIfAble(source));
      Ok((s2, DeliveryError(l, e)))
    else Ok((s1, DeliveryError(l, e)))
  }

  /** A kernel notification about destroyed sessions to one process. */
  function NotifySessionDestroyed(s: State, target: int): Outcome<State> {
    var i := FindListener(s.listeners, SESSION_DESTROYED, false, target, 0);
    if i >= |s.listeners| then Ok(s)
    else
      var (s1, e) :- Deliver(s, s.listeners[i], KERNEL_PROC_ID, PROC_ID_BYTES, 0, |s.replies|);
      if e != NoError then Halt(NotificationRefused) else Ok(s1)
  }

  // ---------------------------------------------------------------- bindings

  function FindBinding(bindings: seq<Binding>, sender: int, receiver: int, i: nat): nat
    requires i <= |bindings|
    decreases |bindings| - i
  {
    if i == |bindings| || (bindings[i].sender == sender && bindings[i].receiver == receiver) then i
    else FindBinding(bindings, sender, receiver, i + 1)
  }

  /** Writes a binding of the receiver's making. */
  function WriteBinding(s: State, i: nat, sender: int, receiver: int, permissions: bv32): State
    requires i < |s.bindings|
  {
    s.(bindings := s.bindings[i := Binding(sender, receiver, permissions)],
       log := s.log + [Granted(receiver, sender, permissions)])
  }

  function CreateBinding(s: State, sender: int, receiver: int, permissions: bv32): (State, IpcError) {
    var i := FindBinding(s.bindings, NONE_PROC_ID, NONE_PROC_ID, 0);
    if i >= |s.bindings| then (s, Full) else (WriteBinding(s, i, sender, receiver, permissions), NoError)
  }

  function UpdateBinding(s: State, sender: int, receiver: int, permissions: bv32): (State, IpcError) {
    var i := FindBinding(s.bindings, sender, receiver, 0);
    if i >= |s.bindings| then (s, NotFound) else (WriteBinding(s, i, sender, receiver, permissions), NoError)
  }

  function DestroyBindingAt(s: State, i: nat, requester: int): Outcome<State>
    requires i < |s.bindings|
  {
    var b := s.bindings[i];
    var s1 :- NotifySessionDestroyed(s, if b.receiver == requester then b.sender else b.receiver);
    Ok(if i < |s1.bindings| then s1.(bindings := s1.bindings[i := NO_BINDING]) else s1)
  }

  function DestroyBinding(s: State, sender: int, receiver: int, requester: int): Outcome<(State, IpcError)> {
    var i := FindBinding(s.bindings, sender, receiver, 0);
    if i >= |s.bindings| then Ok((s, NotFound))
    else
      var s1 :- DestroyBindingAt(s, i, requester);
      Ok((s1, NoError))
  }

  datatype BindFlag = NoBind | Bind | Update | Unbind
  datatype BindData = BindData(flag: BindFlag, permissions: bv32)

  /** What a send or a reply by `p` does to the right of `peer` to write to it. */
  function ApplyBind(s: State, peer: int, p: int, b: BindData): Outcome<(State, IpcError)> {
    match b.flag
    case NoBind => Ok((s, NoError))
    case Bind => Ok(CreateBinding(s, peer, p, b.permissions))
    case Update => Ok(UpdateBinding(s, peer, p, b.permissions))
    case Unbind => DestroyBinding(s, peer, p, p)
  }

  /** The permissions include every bit of the mask. */
  predicate Includes(permissions: bv32, mask: bv32) {
    mask & permissions == mask
  }

  predicate Permitted(bindings: seq<Binding>, source: int, l: Listener) {
    var i := FindBinding(bindings, source, l.procId, 0);
    i < |bindings| && Includes(bindings[i].permissions, l.mask)
  }

  // ---------------------------------------------------------------- IPC calls

  datatype Query = Query(path: string, target: int, bytes: nat, replyBytes: nat, bind: BindData)

  function SendTo(s: State, p: int, l: Listener, q: Query): Outcome<(State, IpcError)> {
    var (s1, token) :-
      if q.replyBytes == 0 then Ok((s, |s.replies|)) else TakeToken(s, p, l.procId, q.replyBytes);
    var (s2, e) :- Deliver(s1, l, p, q.bytes, q.replyBytes, token);
    if e != NoError then Ok((s2, e))
    else
      var s3 := if l.bindingRequired then s2.(log := s2.log + [BoundMessage(p, l.procId, l.mask)]) else s2;
      ApplyBind(s3, l.procId, p, q.bind)
  }

  function Send(s: State, p: int, q: Query): Outcome<(State, IpcError)> {
    if q.path == [] || |q.path| > MAX_LENGTH then Ok((s, InvalidPath))
    else if !GlobalPath(q.path) && !DirectPath(q.path) then Ok((s, InvalidPath))
    else
      var i := FindListener(s.listeners, q.path, GlobalPath(q.path), q.target, 0);
      if i >= |s.listeners| then Ok((s, NoError))
      else
        var l := s.listeners[i];
        if !l.bindingRequired && DirectPath(q.path) then Ok((s, InvalidParameter))
        else if l.bindingRequired && !Permitted(s.bindings, p, l) then Ok((s, Forbidden))
        else SendTo(s, p, l, q)
  }

  datatype ReplyInfo = ReplyInfo(token: nat, bytes: nat, bind: BindData)

  function SendReply(s: State, p: int, r: ReplyInfo): Outcome<(State, IpcError)> {
    if r.bytes == 0 || r.token >= |s.replies| then Ok((s, InvalidParameter))
    else
      var reply := s.replies[r.token];
      if reply.handler == NONE_PROC_ID then Ok((s, NotFound))
      else if reply.handler != p then Ok((s, Forbidden))
      else if reply.bytes != r.bytes then Ok((s, InvalidParameter))
      else if reply.sender <= KERNEL_PROC_ID then Halt(ReplyToNobody)
      else
        var (s1, e) :- ApplyBind(s, reply.sender, p, r.bind);
        if e != NoError || r.token >= |s1.replies| then Ok((s1, e))
        else
          var s2 :- ReleaseToken(s1, r.token);
          Ok((s2, NoError))
  }

  function FreeListener(listeners: seq<Listener>, i: nat): nat
    requires i <= |listeners|
    decreases |listeners| - i
  {
    if i == |listeners| || listeners[i].procId == NONE_PROC_ID then i else FreeListener(listeners, i + 1)
  }

  predicate ReceivesKernelNotifications(listeners: seq<Listener>, p: int) {
    exists i :: 0 <= i < |listeners| && listeners[i].procId == p && listeners[i].path == SESSION_DESTROYED
  }

  /** What a process registers; two of the fields say that a handler and a decoder are given. */
  datatype Registration = Registration(path: string, handler: bool, decoder: bool, bindingRequired: bool, mask: bv32)

  function Register(s: State, p: int, r: Registration): Outcome<(State, IpcError)> {
    var Registration(path, handler, decoder, bindingRequired, mask) := r;
    if p <= KERNEL_PROC_ID then Ok((s, InvalidParameter))
    else if path == [] || |path| > MAX_LENGTH then Ok((s, InvalidPath))
    else if !handler || !decoder then Ok((s, InvalidParameter))
    else if !bindingRequired && mask != 0 then Ok((s, InvalidParameter))
    else if !GlobalPath(path) && !DirectPath(path) && !NotificationPath(path) then Ok((s, InvalidPath))
    else if DirectPath(path) && !bindingRequired then Ok((s, InvalidParameter))
    else if NotificationPath(path) && bindingRequired then Ok((s, InvalidParameter))
    else if bindingRequired && !ReceivesKernelNotifications(s.listeners, p) then Ok((s, PreconditionNotSatisfied))
    else if GlobalPath(path) && NextListener(s.listeners, path, 0) < |s.listeners| then Ok((s, AlreadyExists))
    else
      var i := FreeListener(s.listeners, 0);
      if i >= |s.listeners| then Halt(ListenerTableFull)
      else Ok((s.(listeners := s.listeners[i := Listener(p, path, bindingRequired, mask)]), NoError))
  }

  // ---------------------------------------------------------------- cleanup of a dead process

  function WithoutListenersOf(listeners: seq<Listener>, p: int): seq<Listener> {
    seq(|listeners|, i requires 0 <= i < |listeners| => if listeners[i].procId == p then NO_LISTENER else listeners[i])
  }

  function CleanTokens(s: State, p: int, i: nat): Outcome<State>
    requires i <= |s.replies|
    decreases |s.replies| - i
  {
    if i == |s.replies| then Ok(s)
    else if s.replies[i].handler == p then
      var s1 :- FailReply(s, i);
      if |s1.replies| == |s.replies| then CleanTokens(s1, p, i + 1) else Ok(s1)
    else if s.replies[i].sender == p then CleanTokens(s.(replies := s.replies[i := NO_REPLY]), p, i + 1)
    else CleanTokens(s, p, i + 1)
  }

  function CleanBindings(s: State, p: int, i: nat): Outcome<State>
    requires i <= |s.bindings|
    decreases |s.bindings| - i
  {
    if i == |s.bindings| then Ok(s)
    else if s.bindings[i].sender == p then
      var s1 :- DestroyBindingAt(s, i, p);
      if |s1.bindings| == |s.bindings| then CleanBindings(s1, p, i + 1) else Ok(s1)
    else if s.bindings[i].receiver == p then CleanBindings(s.(bindings := s.bindings[i := NO_BINDING]), p, i + 1)
    else CleanBindings(s, p, i + 1)
  }

  function CleanIpc(s: State, p: int): Outcome<State> {
    var s1 :- CleanTokens(s.(listeners := WithoutListenersOf(s.listeners, p)), p, 0);
    CleanBindings(s1, p, 0)
  }

  function Released(d: Device): Device {
    d.(holder := NONE_PROC_ID, listening := false)
  }

  function CleanDevices(s: State, p: int): State {
    s.(devices := seq(|s.devices|, i requires 0 <= i < |s.devices| =>
         if s.devices[i].holder == p then Released(s.devices[i]) else s.devices[i]))
  }

  function CleanRunLoop(s: State, p: int): Outcome<State> {
    if !(0 <= p < |s.loops|) then Halt(ProcIdOutOfRange) else Ok(s.(loops := s.loops[p := []], mail := s.mail + [Gone(p)]))
  }

  // ---------------------------------------------------------------- devices

  datatype DevError =
    | DevNone | DevUnknown | DevNotFound | AlreadyHeld | AlreadySet
    | HandleInvalid | DevStateInvalid | ListenerInvalid | DecoderInvalid

  function Acquire(s: State, p: int, d: nat): Outcome<(State, DevError)> {
    if d >= |s.devices| then Halt(DeviceInvalid)
    else if !IsUser(s.procs, p) then Halt(ProcIdOutOfRange)
    else if !s.procs[p].state.Running? then Halt(DeviceCallerNotRunning)
    else if s.devices[d].holder != NONE_PROC_ID then Ok((s, AlreadyHeld))
    else Ok((s.(devices := s.devices[d := s.devices[d].(holder := p)]), DevNone))
  }

  function Release(s: State, p: int, d: nat): Outcome<State> {
    if d >= |s.devices| then Halt(DeviceInvalid)
    else if s.devices[d].holder == p then Ok(s.(devices := s.devices[d := Released(s.devices[d])]))
    else Ok(s)
  }

  /** The last two parameters say that a listener and a decoder are given. */
  function Listen(s: State, p: int, d: nat, listener: bool, decoder: bool): Outcome<(State, DevError)> {
    if !listener then Ok((s, ListenerInvalid))
    else if !decoder then Ok((s, DecoderInvalid))
    else if d >= |s.devices| then Ok((s, DevUnknown))
    else if !IsUser(s.procs, p) then Halt(ProcIdOutOfRange)
    else if !s.procs[p].state.Running? then Halt(DeviceCallerNotRunning)
    else if s.devices[d].holder != p then Ok((s, HandleInvalid))
    else if !s.devices[d].started then Ok((s, DevStateInvalid))
    else if s.devices[d].listening then Ok((s, AlreadySet))
    else Ok((s.(devices := s.devices[d := s.devices[d].(listening := true)]), DevNone))
  }

  function EmitError(e: ProcError): DevError {
    match e
    case PeNone => DevNone
    case PeIgnored => HandleInvalid
    case PeLimitReached => DevUnknown
  }

  function Emit(s: State, d: nat, bytes: nat): Outcome<(State, DevError)> {
    if d >= |s.devices| then Halt(DeviceInvalid)
    else if !s.devices[d].started then Ok((s, DevStateInvalid))
    else if !s.devices[d].listening then Ok((s, DevNotFound))
    else if s.devices[d].holder == NONE_PROC_ID then Halt(ListenerWithoutHolder)
    else
      var (s1, e) :- CallbackInvoke(s, s.devices[d].holder, Message(KERNEL_PROC_ID, |s.replies|), EVENT_HEADER_BYTES + bytes);
      Ok((s1, EmitError(e)))
  }

  // ---------------------------------------------------------------- deferred tasks

  function WaitForEventIfIdle(s: State, p: int): Outcome<State> {
    if !(0 <= p < |s.loops|) then Halt(ProcIdOutOfRange)
    else if IsEmpty(s.loops[p]) then LockProc(s, p, EventLock)
    else Ok(s)
  }

  /** How far the loading of an executable gets; the last two come after a process was spawned for it. */
  datatype Image =
    | NotLoaded
    | Faulty
    | NoStack(pages: set<int>)
    | Loaded(pages: set<int>, entry: nat, heap: nat)

  function StartImage(s: State, image: Image): Outcome<State> {
    if image.NotLoaded? then Ok(s)
    else
      var (s1, p) := Spawn(s);
      if p.None? then Ok(s1)
      else if image.Faulty? then Halt(ImageRejected)
      else
        var s2 := if p.value < |s1.mapped| && 0 <= p.value then s1.(mapped := s1.mapped[p.value := image.pages]) else s1;
        if image.NoStack? then CleanupProc(s2, p.value) else Hatch(s2, p.value, image.entry, image.heap)
  }

  function RunTask(s: State, t: Task, image: Image): Outcome<State> {
    match t
    case Evaluate => Ok(s.(next := ProcSelect(s.procs, s.last)))
    case UnlockIfAble(p) => UnlockProcIfAble(s, p)
    case WaitForEvent(p) => WaitForEventIfIdle(s, p)
    case Start(p) => StartImage(s, image)
    case DevCleanup(p) => Ok(CleanDevices(s, p))
    case IpcCleanup(p) => CleanIpc(s, p)
    case RunLoopCleanup(p) => CleanRunLoop(s, p)
    case ProcCleanup(p) => CleanupProc(s, p)
  }

  // ---------------------------------------------------------------- system calls

  datatype Syscall =
    | CallStart | CallBye | CallFug | CallWaitForEvent | CallYield
    | CallSend(query: Query) | CallReply(info: ReplyInfo)
    | CallRegister(registration: Registration)
    | CallAcquire(device: nat) | CallRelease(device: nat) | CallListen(device: nat, listener: bool, decoder: bool)
    | CallGetItem | CallGetData
    | CallMemPlz(pages: set<int>) | CallMemThx(page: int)

  function Bye(s: State, p: int): Outcome<State> {
    var s1 :- Dispatch(s, DevCleanup(p));
    var s2 :- Dispatch(s1, IpcCleanup(p));
    var s3 :- Dispatch(s2, RunLoopCleanup(p));
    Stop(s3, p)
  }

  /** The run loop of p after it was read; an entry may have left it. */
  function WithLoop(s: State, p: int, f: Fifo<Message>): State
    requires 0 <= p < |s.loops|
  {
    s.(loops := s.loops[p := f], mail := if |f| < |s.loops[p]| then s.mail + [Collected(p)] else s.mail)
  }

  function Perform(s: State, p: int, call: Syscall): Outcome<State>
    requires 0 <= p < |s.loops| && p < |s.mapped|
  {
    match call
    case CallStart => Dispatch(s, Start(p))
    case CallBye => Bye(s, p)
    case CallFug => Bye(s, p)
    case CallWaitForEvent => Dispatch(s, WaitForEvent(p))
    case CallYield => StateDidChange(s)
    case CallSend(q) => var (s1, _) :- Send(s, p, q); Ok(s1)
    case CallReply(r) => var (s1, _) :- SendReply(s, p, r); Ok(s1)
    case CallRegister(r) => var (s1, _) :- Register(s, p, r); Ok(s1)
    case CallAcquire(d) => var (s1, _) :- Acquire(s, p, d); Ok(s1)
    case CallRelease(d) => Release(s, p, d)
    case CallListen(d, l, e) => var (s1, _) :- Listen(s, p, d, l, e); Ok(s1)
    case CallGetItem => Ok(WithLoop(s, p, FetchItem(s.loops[p]).1))
    case CallGetData => Ok(WithLoop(s, p, FetchData(s.loops[p]).1))
    case CallMemPlz(pages) => Ok(s.(mapped := s.mapped[p := s.mapped[p] + pages]))
    case CallMemThx(page) =>
      if page == 0 then Ok(s)
      else if page !in s.mapped[p] then Halt(PageNotMapped)
      else Ok(s.(mapped := s.mapped[p := s.mapped[p] - {page}]))
  }

  // ---------------------------------------------------------------- steps of the machine

  datatype Action =
    | Startup(image: Image)      // one executable started before the queue runs
    | StartQueue
    | Call(call: Syscall)        // a system call, up to the end of its handler
    | Tick                       // the timer interrupt, up to the end of its handler
    | DeviceIrq(device: nat, bytes: nat)
    | OtherIsr                   // an interrupt or call that changes nothing here, up to the end of its handler
    | IsrEnd
    | RunHead(image: Image)
    | PopHead
    | Idle                       // the queue is empty: hand over, or spin
    | Return                     // k_proc_switch returns

  predicate Enabled(s: State, a: Action) {
    match a
    case Startup(_) => !s.queueRunning && s.isr == 0
    case StartQueue => !s.queueRunning && s.isr == 0
    case Call(_) => !s.kernel.Running? && s.isr == 0 && 0 <= s.current < |s.loops| && s.current < |s.mapped|
    case Tick => s.isr == 0
    case DeviceIrq(d, _) => s.isr == 0 && d < |s.devices|
    case OtherIsr => s.isr == 0
    case IsrEnd => s.isr > 0
    case RunHead(_) => s.kernel.Running? && s.isr == 0 && s.queueRunning && !s.resuming && s.head.None? && s.todo != []
    case PopHead => s.kernel.Running? && s.isr == 0 && s.head.Some?
    case Idle => s.kernel.Running? && s.isr == 0 && s.queueRunning && !s.resuming && s.head.None? && s.todo == []
    case Return => s.kernel.Running? && s.isr == 0 && s.resuming
  }

  function Retire(s: State, t: Task): State {
    s.(head := Some(t), todo := if s.todo == [] then [] else s.todo[1..])
  }

  function Step(s: State, a: Action): Outcome<State>
    requires Enabled(s, a)
  {
    match a
    case Startup(image) => StartImage(s, image)
    case StartQueue => Ok(s.(queueRunning := true))
    case Call(call) => Perform(s.(isr := 1), s.current, call)
    case Tick => OnTick(s.(isr := 1))
    case DeviceIrq(d, bytes) => var (s1, _) :- Emit(s.(isr := 1), d, bytes); Ok(s1)
    case OtherIsr => Ok(s.(isr := 1))
    case IsrEnd =>
      var s1 := s.(isr := s.isr - 1);
      if s1.isr == 0 && QueueLength(s1) > 0 then SwitchToKernelIfNeeded(s1, s1.next) else Ok(s1)
    case RunHead(image) =>
      var s1 :- RunTask(s, s.todo[0], image);
      Ok(Retire(s1, s.todo[0]))
    case PopHead => Ok(s.(head := None))
    case Idle => OnKernelHandlingFinished(s)
    case Return => Ok(Resume(s))
  }

  /** A run: actions that are not enabled are skipped, and nothing follows a halt. */
  function Execute(s: State, actions: seq<Action>): Outcome<State>
    decreases |actions|
  {
    if actions == [] then Ok(s)
    else if !Enabled(s, actions[0]) then Execute(s, actions[1..])
    else
      var s1 :- Step(s, actions[0]);
      Execute(s1, actions[1..])
  }

  /** The state after boot: nothing has been started. */
  function Boot(procs: nat, listeners: nat, tokens: nat, bindings: nat, started: seq<bool>): State {
    State(
      seq(procs, i => EMPTY_PROC), Running, KERNEL_PROC_ID,
      KERNEL_PROC_ID, KERNEL_PROC_ID, GRANULARITY_MS, false,
      false, None, [], 0,
      seq(procs, i => []), seq(procs, i => {}),
      seq(listeners, i => NO_LISTENER), seq(tokens, i => NO_REPLY), seq(bindings, i => NO_BINDING),
      seq(|started|, i requires 0 <= i < |started| => Device(started[i], NONE_PROC_ID, false)),
      [], [])
  }
}
