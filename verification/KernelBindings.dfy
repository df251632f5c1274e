/** Who may write to a listener that requires a binding, at the moment of the message. */
module KernelBindings {
  import opened Outcomes
  import opened KernelState
  import opened KernelInvariant
  import opened KernelTheorems
  import KernelSteps

  lemma DeliverLogsNothing(s: State, l: Listener, source: int, bytes: nat, replyBytes: nat, token: nat)
    ensures Deliver(s, l, source, bytes, replyBytes, token).Ok? ==>
      Deliver(s, l, source, bytes, replyBytes, token).value.0.log == s.log
  {
  }

  lemma TakeTokenLogsNothing(s: State, p: int, handler: int, bytes: nat)
    ensures TakeToken(s, p, handler, bytes).Ok? ==> TakeToken(s, p, handler, bytes).value.0.log == s.log
  {
  }

  lemma DestroyLogsNothing(s: State, i: nat, requester: int)
    requires i < |s.bindings|
    ensures DestroyBindingAt(s, i, requester).Ok? ==> DestroyBindingAt(s, i, requester).value.log == s.log
  {
    hide Deliver;
    var target := if s.bindings[i].receiver == requester then s.bindings[i].sender else s.bindings[i].receiver;
    var l := FindListener(s.listeners, IpcPath.SESSION_DESTROYED, false, target, 0);
    if l < |s.listeners| {
      DeliverLogsNothing(s, s.listeners[l], KERNEL_PROC_ID, PROC_ID_BYTES, 0, |s.replies|);
    }
  }

  lemma BindLogsGrants(s: State, peer: int, p: int, b: BindData)
    ensures ApplyBind(s, peer, p, b).Ok? ==>
      var log := ApplyBind(s, peer, p, b).value.0.log;
      log == s.log || log == s.log + [Granted(p, peer, b.permissions)]
  {
    hide DestroyBindingAt;
    var i := FindBinding(s.bindings, peer, p, 0);
    if i < |s.bindings| {
      DestroyLogsNothing(s, i, p);
    }
  }

  /** Some binding of that pair includes the mask. */
  ghost predicate BoundFor(bindings: seq<Binding>, source: int, target: int, mask: bv32) {
    exists i :: 0 <= i < |bindings| && bindings[i].sender == source && bindings[i].receiver == target
                && Includes(bindings[i].permissions, mask)
  }

  /** Every message from the k-th event on went over a binding. */
  ghost predicate MessagesBound(s: State, log: seq<Event>, p: int) {
    && s.log <= log
    && forall k :: |s.log| <= k < |log| && log[k].BoundMessage? ==>
         log[k].source == p && BoundFor(s.bindings, p, log[k].target, log[k].mask)
  }

  lemma PermittedMeansBound(s: State, p: int, l: Listener)
    requires Permitted(s.bindings, p, l)
    ensures BoundFor(s.bindings, p, l.procId, l.mask)
  {
    hide Includes;
    KernelSteps.FoundBinding(s.bindings, p, l.procId, 0);
  }

  lemma SendToIsBound(s: State, p: int, l: Listener, q: Query)
    requires l.bindingRequired ==> BoundFor(s.bindings, p, l.procId, l.mask)
    ensures SendTo(s, p, l, q).Ok? ==> MessagesBound(s, SendTo(s, p, l, q).value.0.log, p)
  {
    hide TakeToken, Deliver, ApplyBind, BoundFor;
    TakeTokenLogsNothing(s, p, l.procId, q.replyBytes);
    var taken := if q.replyBytes == 0 then Ok((s, |s.replies|)) else TakeToken(s, p, l.procId, q.replyBytes);
    if taken.Ok? {
      var (s1, token) := taken.value;
      DeliverLogsNothing(s1, l, p, q.bytes, q.replyBytes, token);
      var sent := Deliver(s1, l, p, q.bytes, q.replyBytes, token);
      if sent.Ok? {
        var s2 := sent.value.0;
        BindLogsGrants(if l.bindingRequired then s2.(log := s2.log + [BoundMessage(p, l.procId, l.mask)]) else s2, l.procId, p, q.bind);
      }
    }
  }

  lemma SendIsBound(s: State, p: int, q: Query)
    ensures Send(s, p, q).Ok? ==> MessagesBound(s, Send(s, p, q).value.0.log, p)
  {
    hide SendTo, Permitted, BoundFor;
    var i := FindListener(s.listeners, q.path, IpcPath.GlobalPath(q.path), q.target, 0);
    if i < |s.listeners| {
      var l := s.listeners[i];
      if l.bindingRequired && Permitted(s.bindings, p, l) {
        PermittedMeansBound(s, p, l);
      }
      if l.bindingRequired ==> Permitted(s.bindings, p, l) {
        SendToIsBound(s, p, l, q);
      }
    }
  }

  /**
    * When a message to a listener that requires a binding goes out, a binding of sender and listener is in force at that
    * moment that has all the permissions asked for, and it is one the listener's owner granted in the current lives of both.
    */
  lemma MessagesGoOverBindings(b: Sizes, run: seq<Action>, s: State, q: Query, s': State, k: nat)
    requires Reaches(b, run, s) && Enabled(s, Call(CallSend(q))) && Step(s, Call(CallSend(q))) == Ok(s')
    requires |s.log| <= k < |s'.log| && s'.log[k].BoundMessage?
    ensures exists i ::
      && 0 <= i < |s.bindings|
      && s.bindings[i].sender == s'.log[k].source == s.current && s.bindings[i].receiver == s'.log[k].target
      && Includes(s.bindings[i].permissions, s'.log[k].mask)
      && GrantLive(s.log, s'.log[k].target, s.current, s.bindings[i].permissions)
  {
    hide Send, TablesOk, ModeOk, SchedOk, StartupOk, MessagesGranted, GrantLive, LastSwitched, Includes;
    ReachedIsSafe(b, run, s);
    CallerIsUser(s);
    SendIsBound(s.(isr := 1), s.current, q);
    assert BoundFor(s.bindings, s.current, s'.log[k].target, s'.log[k].mask);
  }

  lemma CallerIsUser(s: State)
    requires Inv(s) && !s.kernel.Running?
    ensures s.current >= 0
  {
  }
}
