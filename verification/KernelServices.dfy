/** What the calls of the kernel do for the processes, told by what is in the tables before and after. */
module KernelServices {
  import opened Outcomes
  import opened RunLoopSpec
  import opened IpcPath
  import opened KernelState
  import opened KernelSteps

  // ---------------------------------------------------------------- locks and evaluations

  /** A process that hears something is not locked for events, and runs again unless it waits for a reply. */
  function Heard(q: Proc): Proc {
    Proc(if q.state.Blocked? && !q.ipc then Ready else q.state, false, q.ipc)
  }

  /** A process whose reply is there runs again unless it waits for an event. */
  function LetGo(q: Proc): Proc {
    Proc(if q.state.Blocked? && !q.event then Ready else q.state, q.event, false)
  }

  /** Evaluations, one at least, were queued behind all other tasks, and the time slice is over. */
  predicate Reevaluates(s: State, s': State) {
    && |s.todo| < |s'.todo| && s.todo <= s'.todo
    && (forall k :: |s.todo| <= k < |s'.todo| ==> s'.todo[k].Evaluate?)
    && s'.elapsed == GRANULARITY_MS
  }

  lemma ReevaluatesOn(s: State, s1: State, s2: State)
    requires Reevaluates(s, s1) || (s1.todo == s.todo && s1.elapsed == s.elapsed)
    requires Reevaluates(s1, s2) || (s2.todo == s1.todo && s2.elapsed == s1.elapsed)
    ensures Reevaluates(s, s2) || (s2.todo == s.todo && s2.elapsed == s.elapsed)
    ensures Reevaluates(s, s1) || Reevaluates(s1, s2) ==> Reevaluates(s, s2)
  {
  }

  // ---------------------------------------------------------------- arrivals

  function Entries(m: Message, bytes: nat): Fifo<Message> {
    [Filled(m, bytes, false, false)]
  }

  /** What is new in the run loop of p comes last, p has heard of it, and no other process or run loop has changed. */
  ghost predicate Arrives(s: State, s': State, p: int, new': Fifo<Message>) {
    && 0 <= p < |s.loops| && p < |s.procs|
    && s'.loops == s.loops[p := s.loops[p] + new']
    && s'.procs == s.procs[p := Heard(s.procs[p])]
    && Reevaluates(s, s')
  }

  /** A delivery to a process that is alive arrives exactly if there is room, and otherwise changes nothing. */
  lemma CallbackArrives(s: State, p: int, m: Message, bytes: nat)
    requires |s.loops| == |s.procs| && bytes > 0
    ensures match CallbackInvoke(s, p, m, bytes)
            case Ok((s', e)) =>
              && (e != PeNone ==> s' == s)
              && (e == PeNone ==>
                    && s' == s.(procs := s'.procs, todo := s'.todo, elapsed := s'.elapsed, loops := s'.loops, mail := s'.mail)
                    && Arrives(s, s', p, Entries(m, bytes)) && s'.mail == s.mail + [Delivered(m, p)])
            case Halt(_) => true
  {
    if IsUser(s.procs, p) && s.procs[p].Alive() && !IsFull(s.loops[p]) && bytes <= DISPATCH_MAX_DATA_SIZE_BYTES {
      assert Fill(Reserve(s.loops[p]), |s.loops[p]|, m, bytes) == s.loops[p] + Entries(m, bytes);
    }
  }

  // ---------------------------------------------------------------- bindings

  predicate Links(b: Binding, sender: int, receiver: int) {
    b.sender == sender && b.receiver == receiver
  }

  /** The binding of that pair that counts. */
  ghost predicate LowestLink(bindings: seq<Binding>, sender: int, receiver: int, i: int) {
    && 0 <= i < |bindings| && Links(bindings[i], sender, receiver)
    && forall k :: 0 <= k < i ==> !Links(bindings[k], sender, receiver)
  }

  /** Which binding the receiver's request is about: for a new one the lowest that is free. */
  ghost predicate Concerns(bindings: seq<Binding>, sender: int, receiver: int, b: BindData, i: int) {
    match b.flag
    case NoBind => false
    case Bind => LowestLink(bindings, NONE_PROC_ID, NONE_PROC_ID, i)
    case Update => LowestLink(bindings, sender, receiver, i)
    case Unbind => LowestLink(bindings, sender, receiver, i)
  }

  /** The request can be granted. */
  ghost predicate CanBind(bindings: seq<Binding>, sender: int, receiver: int, b: BindData) {
    b.flag.NoBind? || exists i :: Concerns(bindings, sender, receiver, b, i)
  }

  /** What the caller is told about the request. */
  ghost function BindResult(bindings: seq<Binding>, sender: int, receiver: int, b: BindData): IpcError {
    if CanBind(bindings, sender, receiver, b) then NoError else if b.flag.Bind? then Full else NotFound
  }

  /** The bindings after a request that was granted. */
  ghost predicate Rebound(bindings: seq<Binding>, bindings': seq<Binding>, sender: int, receiver: int, b: BindData) {
    if b.flag.NoBind? then bindings' == bindings
    else exists i :: Concerns(bindings, sender, receiver, b, i)
                     && bindings' == bindings[i := if b.flag.Unbind? then NO_BINDING else Binding(sender, receiver, b.permissions)]
  }

  /** The other party is told of the end of its binding if it listens for it. */
  ghost predicate Told(s: State, peer: int, b: BindData) {
    b.flag.Unbind? && Listens(s.listeners, peer)
  }

  /** The notice that it gets. */
  function Notice(s: State): Fifo<Message> {
    Entries(Message(KERNEL_PROC_ID, |s.replies|), QUERY_HEADER_BYTES + PROC_ID_BYTES)
  }

  lemma FindsLowest(bindings: seq<Binding>, sender: int, receiver: int)
    ensures var i := FindBinding(bindings, sender, receiver, 0);
            && i <= |bindings|
            && (i < |bindings| ==> LowestLink(bindings, sender, receiver, i))
            && (i == |bindings| ==> forall k :: !LowestLink(bindings, sender, receiver, k))
  {
    FoundBinding(bindings, sender, receiver, 0);
  }

  /** Besides bindings and their history, only a notice is given. */
  ghost predicate GivesNotice(s: State, s': State, peer: int, told: bool) {
    && s' == s.(procs := s'.procs, todo := s'.todo, elapsed := s'.elapsed, loops := s'.loops, mail := s'.mail,
                bindings := s'.bindings, log := s'.log)
    && if told then Arrives(s, s', peer, Notice(s))
       else s'.procs == s.procs && s'.todo == s.todo && s'.elapsed == s.elapsed && s'.loops == s.loops
  }

  lemma NotifyArrives(s: State, target: int)
    requires |s.loops| == |s.procs|
    ensures match NotifySessionDestroyed(s, target)
            case Ok(s') => GivesNotice(s, s', target, Listens(s.listeners, target)) && s'.bindings == s.bindings && s'.log == s.log
            case Halt(_) => true
  {
    hide CallbackInvoke, Arrives, Matches;
    FindsWhoListens(s.listeners, target, 0);
    FindsOwner(s.listeners, SESSION_DESTROYED, false, target, 0);
    var m := Message(KERNEL_PROC_ID, |s.replies|);
    CallbackArrives(s, target, m, QUERY_HEADER_BYTES + PROC_ID_BYTES);
  }

  /** The lookup finds the first listener from the i-th on that fits. */
  lemma FindsOwner(listeners: seq<Listener>, path: string, any: bool, target: int, i: nat)
    requires i <= |listeners|
    ensures var j := FindListener(listeners, path, any, target, i);
            && i <= j <= |listeners|
            && (j < |listeners| ==> Matches(path, listeners[j].path) && (any || listeners[j].procId == target))
            && forall k :: i <= k < j ==> !(Matches(path, listeners[k].path) && (any || listeners[k].procId == target))
    decreases |listeners| - i
  {
    hide Matches;
    NextListenerIsFirst(listeners, path, i);
    var j := NextListener(listeners, path, i);
    if j < |listeners| && !any && listeners[j].procId != target {
      FindsOwner(listeners, path, any, target, j + 1);
    }
  }

  /** A request of p about the right of peer to write to it. */
  lemma BindIsRebound(s: State, peer: int, p: int, b: BindData)
    requires |s.loops| == |s.procs|
    ensures match ApplyBind(s, peer, p, b)
            case Ok((s', e)) =>
              && e == BindResult(s.bindings, peer, p, b)
              && (e != NoError ==> s' == s)
              && (e == NoError ==>
                    && Rebound(s.bindings, s'.bindings, peer, p, b)
                    && GivesNotice(s, s', peer, Told(s, peer, b))
                    && s'.log == if b.flag.Bind? || b.flag.Update? then s.log + [Granted(p, peer, b.permissions)] else s.log)
            case Halt(_) => true
  {
    hide NotifySessionDestroyed, Listens, LowestLink, Arrives;
    FindsLowest(s.bindings, NONE_PROC_ID, NONE_PROC_ID);
    FindsLowest(s.bindings, peer, p);
    var free := FindBinding(s.bindings, NONE_PROC_ID, NONE_PROC_ID, 0);
    var i := FindBinding(s.bindings, peer, p, 0);
    assert b.flag.Bind? && free < |s.bindings| ==> Concerns(s.bindings, peer, p, b, free);
    assert (b.flag.Update? || b.flag.Unbind?) && i < |s.bindings| ==> Concerns(s.bindings, peer, p, b, i);
    if b.flag.Unbind? && i < |s.bindings| {
      LinkedParty(s.bindings, peer, p, i);
      NotifyArrives(s, peer);
      var r := NotifySessionDestroyed(s, peer);
      if r.Ok? {
        NoticeIsApart(s, r.value, peer, s.bindings[i := NO_BINDING]);
      }
    }
  }

  lemma NoticeIsApart(s: State, s1: State, peer: int, bindings: seq<Binding>)
    requires GivesNotice(s, s1, peer, Listens(s.listeners, peer))
    ensures GivesNotice(s, s1.(bindings := bindings), peer, Listens(s.listeners, peer))
  {
    hide Listens;
  }

  lemma LinkedParty(bindings: seq<Binding>, peer: int, p: int, i: nat)
    requires LowestLink(bindings, peer, p, i)
    ensures OtherParty(bindings[i], p) == peer
  {
  }
}
