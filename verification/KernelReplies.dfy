/** Requests and replies: whom a message gets to with which token, and whom a reply lets go. */
module KernelReplies {
  import opened Outcomes
  import opened RunLoopSpec
  import opened IpcPath
  import opened KernelState
  import opened KernelInvariant
  import opened KernelSteps
  import opened KernelCalls
  import opened KernelServices
  import opened KernelTheorems

  /** Sends and replies touch no other tables than these. */
  ghost predicate OnlyMessages(s: State, s': State) {
    s' == s.(procs := s'.procs, todo := s'.todo, elapsed := s'.elapsed, loops := s'.loops,
             replies := s'.replies, bindings := s'.bindings, log := s'.log, mail := s'.mail)
  }

  // ---------------------------------------------------------------- replies

  /** A reply of p to one of the messages it still has to answer, of the size asked for, with a request that can be granted. */
  ghost predicate Accepted(s: State, p: int, r: ReplyInfo) {
    && r.bytes != 0 && r.token < |s.replies|
    && s.replies[r.token].handler == p && s.replies[r.token].bytes == r.bytes
    && CanBind(s.bindings, s.replies[r.token].sender, p, r.bind)
  }

  /** What the caller is told about its reply. */
  ghost function ReplyResult(s: State, p: int, r: ReplyInfo): IpcError {
    if r.bytes == 0 || r.token >= |s.replies| then InvalidParameter
    else if s.replies[r.token].sender == NONE_PROC_ID then NotFound
    else if s.replies[r.token].handler != p then Forbidden
    else if s.replies[r.token].bytes != r.bytes then InvalidParameter
    else BindResult(s.bindings, s.replies[r.token].sender, p, r.bind)
  }

  /** The token is free, and its sender goes on; with a binding that ends it may get a notice. */
  ghost predicate Replied(s: State, s': State, p: int, r: ReplyInfo)
    requires r.token < |s.replies|
  {
    var x := s.replies[r.token].sender;
    var told := Told(s, x, r.bind);
    && IsUser(s.procs, x) && x != p && x < |s.loops|
    && s.procs[x].state.Blocked? && s.procs[x].ipc
    && s'.replies == s.replies[r.token := NO_REPLY]
    && s'.procs == s.procs[x := LetGo(if told then Heard(s.procs[x]) else s.procs[x])]
    && s'.loops == (if told then s.loops[x := s.loops[x] + Notice(s)] else s.loops)
    && (told || s'.procs[x].state.Ready? ==> Reevaluates(s, s'))
    && Rebound(s.bindings, s'.bindings, x, p, r.bind)
    && OnlyMessages(s, s')
  }

  lemma ReleaseAnswers(s: State, token: nat)
    requires Inv(s) && token < |s.replies| && s.replies[token].sender != NONE_PROC_ID
    ensures var x := s.replies[token].sender;
            && IsUser(s.procs, x) && s.procs[x].state.Blocked? && s.procs[x].ipc
            && match ReleaseToken(s, token)
               case Ok(s') =>
                 && s' == s.(replies := s.replies[token := NO_REPLY], procs := s.procs[x := LetGo(s.procs[x])],
                             todo := s'.todo, elapsed := s'.elapsed)
                 && if s'.procs[x].state.Ready? then Reevaluates(s, s') else s'.todo == s.todo && s'.elapsed == s.elapsed
               case Halt(_) => true
  {
    hide OthersOk, WaitersOk, HistoryOk, StartupOk, SchedOk, ModeOk, OwnsToken;
    TokenOwner(s, token);
  }

  lemma CallerIsUser(s: State)
    requires Calling(s)
    ensures IsUser(s.procs, s.current)
  {
  }

  lemma FreeTokensHaveNoHandler(s: State)
    requires Inv(s)
    ensures forall i :: 0 <= i < |s.replies| ==> (s.replies[i].sender == NONE_PROC_ID <==> s.replies[i].handler == NONE_PROC_ID)
  {
    hide HistoryOk;
  }

  lemma CallerWaitsForNothing(s: State, token: nat)
    requires Inv(s) && Calling(s) && token < |s.replies|
    ensures s.replies[token].sender != s.current && |s.loops| == |s.procs|
  {
    hide HistoryOk;
  }

  lemma ReplyIsReplied(s: State, r: ReplyInfo)
    requires Inv(s) && Calling(s)
    ensures match SendReply(s, s.current, r)
            case Ok((s', e)) =>
              && e == ReplyResult(s, s.current, r)
              && (!Accepted(s, s.current, r) ==> s' == s)
              && (Accepted(s, s.current, r) ==> Replied(s, s', s.current, r))
            case Halt(_) => true
  {
    hide Inv, Calling, ApplyBind, ReleaseToken, CanBind, Rebound, Arrives, Listens, Notice, ListenersAlive;
    LiveListeners(s);
    CallerIsUser(s);
    FreeTokensHaveNoHandler(s);
    if r.bytes != 0 && r.token < |s.replies| && s.replies[r.token].handler == s.current && s.replies[r.token].bytes == r.bytes {
      SenderOfToken(s, r.token);
      CallerWaitsForNothing(s, r.token);
      var x := s.replies[r.token].sender;
      ApplyBindKeeps(s, x, s.current, r.bind);
      BindIsRebound(s, x, s.current, r.bind);
      var a := ApplyBind(s, x, s.current, r.bind);
      if a.Ok? && a.value.1 == NoError {
        ReleaseAnswers(a.value.0, r.token);
        var f := ReleaseToken(a.value.0, r.token);
        if f.Ok? {
          AnsweredAfterNotice(s, a.value.0, f.value, s.current, r);
        }
      }
    }
  }

  lemma AnsweredAfterNotice(s: State, s1: State, s2: State, p: int, r: ReplyInfo)
    requires r.token < |s.replies| && |s.loops| == |s.procs|
    requires var x := s.replies[r.token].sender;
             && GivesNotice(s, s1, x, Told(s, x, r.bind)) && IsUser(s.procs, x) && x != p
             && s.procs[x].state.Blocked? && s.procs[x].ipc
             && s2 == s1.(replies := s.replies[r.token := NO_REPLY], procs := s1.procs[x := LetGo(s1.procs[x])],
                          todo := s2.todo, elapsed := s2.elapsed)
             && (if s2.procs[x].state.Ready? then Reevaluates(s1, s2) else s2.todo == s1.todo && s2.elapsed == s1.elapsed)
             && Rebound(s.bindings, s1.bindings, x, p, r.bind)
    ensures Replied(s, s2, p, r)
  {
    hide Rebound, Listens;
    ReevaluatesOn(s, s1, s2);
  }

  // ---------------------------------------------------------------- requests

  /** A listener on the path, of the target when the path is direct. */
  predicate Fits(l: Listener, q: Query) {
    Matches(q.path, l.path) && (GlobalPath(q.path) || l.procId == q.target)
  }

  /** The message is for this listener: the first on a valid path. */
  ghost predicate IsFor(s: State, q: Query, i: int) {
    && 0 < |q.path| <= MAX_LENGTH && (GlobalPath(q.path) || DirectPath(q.path))
    && 0 <= i < |s.listeners| && Fits(s.listeners[i], q)
    && forall k :: 0 <= k < i ==> !Fits(s.listeners[k], q)
  }

  /** The sender has a binding to a listener that asks for one, and the lowest of them has all its permissions. */
  ghost predicate MayWrite(s: State, p: int, l: Listener, q: Query) {
    if l.bindingRequired then exists i :: LowestLink(s.bindings, p, l.procId, i) && Includes(s.bindings[i].permissions, l.mask)
    else GlobalPath(q.path)
  }

  ghost predicate Addressed(s: State, p: int, q: Query, i: int) {
    IsFor(s, q, i) && MayWrite(s, p, s.listeners[i], q)
  }

  predicate IsLowestFree(replies: seq<Reply>, t: nat) {
    t < |replies| && replies[t].sender == NONE_PROC_ID && forall k :: 0 <= k < t ==> replies[k].sender != NONE_PROC_ID
  }

  /** The token that goes with a message, if it wants a reply. */
  ghost predicate TakesToken(s: State, s': State, p: int, h: int, replyBytes: nat, t: nat) {
    if replyBytes == 0 then t == |s.replies| && s'.replies == s.replies
    else IsLowestFree(s.replies, t) && s'.replies == s.replies[t := Reply(p, h, replyBytes)]
  }

  function Blocking(procs: seq<Proc>, p: int): seq<Proc>
    requires IsUser(procs, p)
  {
    procs[p := Proc(Blocked, procs[p].event, true)]
  }

  /** The message is the next in the run loop of the listener, with its token, and its sender waits for the reply. */
  ghost predicate Sent(s: State, s': State, p: int, l: Listener, q: Query) {
    var h := l.procId;
    var bound := CanBind(s.bindings, h, p, q.bind);
    var told := bound && Told(s, h, q.bind);
    && IsUser(s.procs, p) && IsUser(s.procs, h) && h < |s.loops|
    && (exists t: nat ::
          && TakesToken(s, s', p, h, q.replyBytes, t)
          && s'.loops == s.loops[h := s.loops[h] + Entries(Message(p, t), QUERY_HEADER_BYTES + q.bytes) + if told then Notice(s) else []])
    && (var procs := if q.replyBytes == 0 then s.procs else Blocking(s.procs, p);
        s'.procs == procs[h := Heard(procs[h])])
    && Reevaluates(s, s')
    && (if bound then Rebound(s.bindings, s'.bindings, h, p, q.bind) else s'.bindings == s.bindings)
    && OnlyMessages(s, s')
  }

  /** There was no room for it: a sender that wanted a reply is blocked until a queued task lets it go again. */
  ghost predicate Undelivered(s: State, s': State, p: int, q: Query) {
    if q.replyBytes == 0 then s' == s
    else
      && IsUser(s.procs, p)
      && s' == s.(replies := s'.replies, procs := Blocking(s.procs, p), todo := s.todo + [Evaluate, UnlockIfAble(p)],
                  elapsed := GRANULARITY_MS)
      && exists t: nat :: IsLowestFree(s.replies, t) && s'.replies == s.replies[t := NO_REPLY]
  }

  lemma TakingBlocks(s: State, p: int, handler: int, bytes: nat)
    requires IsUser(s.procs, p) && s.procs[p] == Proc(Running, false, false)
    ensures match TakeToken(s, p, handler, bytes)
            case Ok((s', t)) =>
              && IsLowestFree(s.replies, t)
              && s' == s.(replies := s.replies[t := Reply(p, handler, bytes)], procs := Blocking(s.procs, p),
                          todo := s.todo + [Evaluate], elapsed := GRANULARITY_MS)
              && Reevaluates(s, s') && |s'.replies| == |s.replies|
            case Halt(_) => true
  {
    FreeReplyIsLowest(s.replies, 0);
  }

  lemma DeliveryArrives(s: State, l: Listener, source: int, bytes: nat, replyBytes: nat, token: nat)
    requires |s.loops| == |s.procs| && IsUser(s.procs, l.procId) && s.procs[l.procId].Alive()
    ensures match Deliver(s, l, source, bytes, replyBytes, token)
            case Ok((s', e)) =>
              && e == (if |s.loops[l.procId]| < DISPATCH_QUEUE_SIZE then NoError else Full)
              && (e == NoError ==>
                    && s' == s.(procs := s'.procs, todo := s'.todo, elapsed := s'.elapsed, loops := s'.loops, mail := s'.mail)
                    && Arrives(s, s', l.procId, Entries(Message(source, token), QUERY_HEADER_BYTES + bytes)))
              && (e != NoError ==>
                    s' == if replyBytes != 0 && token < |s.replies| then
                            s.(replies := s.replies[token := NO_REPLY], todo := s.todo + [UnlockIfAble(source)])
                          else s)
            case Halt(_) => true
  {
    hide CallbackInvoke, Arrives;
    CallbackArrives(s, l.procId, Message(source, token), QUERY_HEADER_BYTES + bytes);
    RoomDecides(s, l.procId, Message(source, token), QUERY_HEADER_BYTES + bytes);
  }

  lemma RoomDecides(s: State, p: int, m: Message, bytes: nat)
    requires |s.loops| == |s.procs| && IsUser(s.procs, p) && s.procs[p].Alive()
    ensures match CallbackInvoke(s, p, m, bytes)
            case Ok((_, e)) => e == if |s.loops[p]| < DISPATCH_QUEUE_SIZE then PeNone else PeLimitReached
            case Halt(_) => true
  {
  }

  lemma SendToIsSent(s: State, p: int, l: Listener, q: Query)
    requires |s.loops| == |s.procs| && IsUser(s.procs, p) && s.procs[p] == Proc(Running, false, false)
    requires IsUser(s.procs, l.procId) && s.procs[l.procId].Alive()
    ensures match SendTo(s, p, l, q)
            case Ok((s', e)) =>
              && (|s.loops[l.procId]| < DISPATCH_QUEUE_SIZE ==>
                    Sent(s, s', p, l, q) && e == BindResult(s.bindings, l.procId, p, q.bind))
              && (|s.loops[l.procId]| >= DISPATCH_QUEUE_SIZE ==> Undelivered(s, s', p, q) && e == Full)
            case Halt(_) => true
  {
    hide TakeToken, Deliver, ApplyBind, CanBind, Rebound, Listens, IsLowestFree, Reevaluates;
    var h := l.procId;
    var taken: Outcome<(State, nat)> :=
      if q.replyBytes == 0 then Ok((s, |s.replies|)) else TakeToken(s, p, h, q.replyBytes);
    if q.replyBytes != 0 {
      TakingBlocks(s, p, h, q.replyBytes);
    }
    if taken.Ok? {
      var (s1, t) := taken.value;
      DeliveryArrives(s1, l, p, q.bytes, q.replyBytes, t);
      var sent := Deliver(s1, l, p, q.bytes, q.replyBytes, t);
      if sent.Ok? && sent.value.1 == NoError {
        var s2 := sent.value.0;
        var s3 := if l.bindingRequired then s2.(log := s2.log + [BoundMessage(p, h, l.mask)]) else s2;
        BindIsRebound(s3, h, p, q.bind);
        var bound := ApplyBind(s3, h, p, q.bind);
        if bound.Ok? {
          SentInParts(s, s1, s2, s3, bound.value.0, p, l, q, t);
        }
      }
    }
  }

  lemma SentInParts(s: State, s1: State, s2: State, s3: State, s4: State, p: int, l: Listener, q: Query, t: nat)
    requires IsUser(s.procs, p) && s.procs[p] == Proc(Running, false, false) && |s.loops| == |s.procs| && IsUser(s.procs, l.procId)
    requires TakesToken(s, s1, p, l.procId, q.replyBytes, t) && |s1.replies| == |s.replies|
    requires if q.replyBytes == 0 then s1 == s
             else Reevaluates(s, s1) && s1 == s.(replies := s1.replies, procs := Blocking(s.procs, p), todo := s.todo + [Evaluate], elapsed := GRANULARITY_MS)
    requires s2 == s1.(procs := s2.procs, todo := s2.todo, elapsed := s2.elapsed, loops := s2.loops, mail := s2.mail)
    requires Arrives(s1, s2, l.procId, Entries(Message(p, t), QUERY_HEADER_BYTES + q.bytes))
    requires s3 == s2.(log := s3.log)
    requires CanBind(s3.bindings, l.procId, p, q.bind) ==>
      Rebound(s3.bindings, s4.bindings, l.procId, p, q.bind) && GivesNotice(s3, s4, l.procId, Told(s3, l.procId, q.bind))
    requires !CanBind(s3.bindings, l.procId, p, q.bind) ==> s4 == s3
    ensures Sent(s, s4, p, l, q)
  {
    hide CanBind, Rebound, Listens, IsLowestFree;
    var h := l.procId;
    var told := CanBind(s.bindings, h, p, q.bind) && Told(s, h, q.bind);
    var e := Entries(Message(p, t), QUERY_HEADER_BYTES + q.bytes);
    assert s.loops[h] + e + [] == s.loops[h] + e;
    assert Notice(s3) == Notice(s);
    ReevaluatesOn(s, s1, s2);
    ReevaluatesOn(s, s2, s4);
  }

  /** The listener that the lookup finds, and the one the message is for, are the same. */
  lemma LookupIsFor(s: State, q: Query)
    requires 0 < |q.path| <= MAX_LENGTH && (GlobalPath(q.path) || DirectPath(q.path))
    ensures var i := FindListener(s.listeners, q.path, GlobalPath(q.path), q.target, 0);
            && 0 <= i <= |s.listeners|
            && (i < |s.listeners| ==> s.listeners[i].path != "" && forall k :: IsFor(s, q, k) <==> k == i)
            && (i == |s.listeners| ==> forall k :: !IsFor(s, q, k))
  {
    hide GlobalPath, DirectPath;
    FindsOwner(s.listeners, q.path, GlobalPath(q.path), q.target, 0);
  }

  lemma PermissionIsMayWrite(s: State, p: int, l: Listener, q: Query)
    requires GlobalPath(q.path) || DirectPath(q.path)
    ensures MayWrite(s, p, l, q) <==> if l.bindingRequired then Permitted(s.bindings, p, l) else !DirectPath(q.path)
  {
    hide GlobalPath, DirectPath, Includes;
    FindsLowest(s.bindings, p, l.procId);
    KindsAreExclusive(q.path);
    if Permitted(s.bindings, p, l) {
      assert LowestLink(s.bindings, p, l.procId, FindBinding(s.bindings, p, l.procId, 0));
    }
  }

  lemma ListenerLives(s: State, i: nat)
    requires Inv(s) && Calling(s) && i < |s.listeners|
    ensures |s.loops| == |s.procs| && s.procs[s.current] == Proc(Running, false, false)
    ensures s.listeners[i].path != "" ==> IsUser(s.procs, s.listeners[i].procId) && s.procs[s.listeners[i].procId].Alive()
  {
    hide HistoryOk;
  }

  /** What the sender is told. */
  ghost function SendResult(s: State, p: int, q: Query): IpcError {
    if |q.path| == 0 || |q.path| > MAX_LENGTH || !(GlobalPath(q.path) || DirectPath(q.path)) then InvalidPath
    else if !exists i :: IsFor(s, q, i) then NoError
    else
      var i :| IsFor(s, q, i);
      var l := s.listeners[i];
      if !MayWrite(s, p, l, q) then (if l.bindingRequired then Forbidden else InvalidParameter)
      else if HasRoom(s, l.procId) then BindResult(s.bindings, l.procId, p, q.bind)
      else Full
  }

  predicate HasRoom(s: State, p: int) {
    0 <= p < |s.loops| && |s.loops[p]| < DISPATCH_QUEUE_SIZE
  }

  lemma SendIsSent(s: State, q: Query)
    requires Inv(s) && Calling(s)
    ensures match Send(s, s.current, q)
            case Ok((s', e)) =>
              && e == SendResult(s, s.current, q)
              && (forall i :: Addressed(s, s.current, q, i) ==>
                    if HasRoom(s, s.listeners[i].procId) then Sent(s, s', s.current, s.listeners[i], q)
                    else Undelivered(s, s', s.current, q))
              && ((forall i :: !Addressed(s, s.current, q, i)) ==> s' == s)
            case Halt(_) => true
  {
    hide Inv, Calling, SendTo, GlobalPath, DirectPath, Fits, MayWrite, Permitted, Sent, Undelivered;
    if 0 < |q.path| <= MAX_LENGTH && (GlobalPath(q.path) || DirectPath(q.path)) {
      LookupIsFor(s, q);
      var i := FindListener(s.listeners, q.path, GlobalPath(q.path), q.target, 0);
      if i < |s.listeners| {
        PermissionIsMayWrite(s, s.current, s.listeners[i], q);
        ListenerLives(s, i);
        CallerIsUser(s);
        SendToIsSent(s, s.current, s.listeners[i], q);
        assert IsFor(s, q, i);
        assert Addressed(s, s.current, q, i) <==> MayWrite(s, s.current, s.listeners[i], q);
      }
    }
  }

  // ---------------------------------------------------------------- the two system calls, in every run

  /** The beginning of an interrupt or a system call. */
  function Entered(s: State): State {
    s.(isr := 1)
  }

  lemma CallBegins(s: State)
    requires Inv(s) && !s.kernel.Running? && s.isr == 0
    ensures Calling(Entered(s)) && Inv(Entered(s)) && s.todo == []
  {
    hide TablesOk, HistoryOk;
    NobodyFinished(s);
  }

  /**
    * The first listener on the path, if the sender may write to it, gets the message exactly if there is room; a sender that
    * asks for a reply then waits with a token that it finds free and that the message carries. Otherwise nobody gets anything.
    */
  lemma MessageGetsThrough(b: Sizes, run: seq<Action>, s: State, q: Query, s': State)
    requires Reaches(b, run, s) && Enabled(s, Call(CallSend(q))) && Step(s, Call(CallSend(q))) == Ok(s')
    ensures forall i :: Addressed(s, s.current, q, i) ==>
      if HasRoom(s, s.listeners[i].procId) then Sent(Entered(s), s', s.current, s.listeners[i], q)
      else Undelivered(Entered(s), s', s.current, q)
    ensures (forall i :: !Addressed(s, s.current, q, i)) ==> s' == Entered(s)
    ensures Send(Entered(s), s.current, q) == Ok((s', SendResult(Entered(s), s.current, q)))
  {
    hide Inv, Calling, Send, IsFor, MayWrite, Sent, Undelivered, SendResult;
    ReachedIsSafe(b, run, s);
    CallBegins(s);
    SendIsSent(Entered(s), q);
    AddressedAlike(s, q);
  }

  lemma AddressedAlike(s: State, q: Query)
    ensures forall i :: Addressed(s, s.current, q, i) <==> Addressed(Entered(s), s.current, q, i)
  {
    hide GlobalPath, DirectPath, Fits, LowestLink, Includes;
  }

  /** A reply lets the sender of the message go exactly if it is accepted, and otherwise changes nothing but what its caller is told. */
  lemma ReplyLetsSenderGo(b: Sizes, run: seq<Action>, s: State, r: ReplyInfo, s': State)
    requires Reaches(b, run, s) && Enabled(s, Call(CallReply(r))) && Step(s, Call(CallReply(r))) == Ok(s')
    ensures s'.replies != s.replies <==> Accepted(s, s.current, r)
    ensures Accepted(s, s.current, r) ==> Replied(Entered(s), s', s.current, r)
    ensures !Accepted(s, s.current, r) ==> s' == Entered(s)
    ensures SendReply(Entered(s), s.current, r) == Ok((s', ReplyResult(s, s.current, r)))
  {
    hide Inv, SendReply, CanBind, Rebound, Listens, Notice;
    ReachedIsSafe(b, run, s);
    CallBegins(s);
    ReplyIsReplied(Entered(s), r);
  }
}
