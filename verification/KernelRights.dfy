/** The right to write to a process, over whole runs: it stays what that process last made it. */
module KernelRights {
  import opened Outcomes
  import opened KernelState
  import opened KernelServices
  import opened KernelReplies
  import opened KernelTables
  import opened KernelEndings
  import opened KernelTheorems
  import KernelEffects
  import KernelSteps

  // ---------------------------------------------------------------- permissions

  predicate IsBit(b: bv32) {
    b != 0 && b & (b - 1) == 0
  }

  predicate HaveBit(x: bv32, b: bv32) {
    x & b != 0
  }

  /** Permissions include a mask exactly if they have every bit that it has. */
  lemma IncludesEveryBit(permissions: bv32, mask: bv32)
    ensures Includes(permissions, mask) <==> forall b :: IsBit(b) && HaveBit(mask, b) ==> HaveBit(permissions, b)
  {
    hide IsBit, Includes, HaveBit, Missing;
    if !Includes(permissions, mask) {
      var b := BitMissing(permissions, mask);
    } else {
      forall b | IsBit(b) && HaveBit(mask, b)
        ensures HaveBit(permissions, b)
      {
        BitIsIncluded(permissions, mask, b);
      }
    }
  }

  function Missing(permissions: bv32, mask: bv32): bv32 {
    mask & !permissions
  }

  lemma BitMissing(permissions: bv32, mask: bv32) returns (b: bv32)
    requires !Includes(permissions, mask)
    ensures IsBit(b) && HaveBit(mask, b) && !HaveBit(permissions, b)
  {
    hide IsBit, Includes, HaveBit, Missing;
    SomethingMissing(permissions, mask);
    b := LowestBit(Missing(permissions, mask));
    LowestIsMissing(permissions, mask, b);
  }

  lemma SomethingMissing(permissions: bv32, mask: bv32)
    requires !Includes(permissions, mask)
    ensures Missing(permissions, mask) != 0
  {
  }

  lemma LowestBit(x: bv32) returns (b: bv32)
    requires x != 0
    ensures IsBit(b) && x & b == b
  {
    b := x & (!x + 1);
  }

  lemma LowestIsMissing(permissions: bv32, mask: bv32, b: bv32)
    requires Missing(permissions, mask) & b == b && IsBit(b)
    ensures HaveBit(mask, b) && !HaveBit(permissions, b)
  {
  }

  lemma BitIsIncluded(permissions: bv32, mask: bv32, b: bv32)
    requires Includes(permissions, mask) && HaveBit(mask, b)
    ensures HaveBit(permissions, b)
  {
  }

  // ---------------------------------------------------------------- steps

  /** The binding that counts gives x these permissions to write to r. */
  ghost predicate Right(bindings: seq<Binding>, x: int, r: int, permissions: bv32) {
    exists i :: LowestLink(bindings, x, r, i) && bindings[i].permissions == permissions
  }

  /** The bindings of x to r are as they were. */
  ghost predicate SameLinks(bindings: seq<Binding>, bindings': seq<Binding>, x: int, r: int) {
    && |bindings'| == |bindings|
    && forall k :: 0 <= k < |bindings| ==>
         && (Links(bindings'[k], x, r) <==> Links(bindings[k], x, r))
         && (Links(bindings[k], x, r) ==> bindings'[k] == bindings[k])
  }

  lemma SameLinksSameRight(bindings: seq<Binding>, bindings': seq<Binding>, x: int, r: int, permissions: bv32)
    requires SameLinks(bindings, bindings', x, r) && Right(bindings, x, r, permissions)
    ensures Right(bindings', x, r, permissions)
  {
    var i :| LowestLink(bindings, x, r, i) && bindings[i].permissions == permissions;
    assert LowestLink(bindings', x, r, i);
  }

  lemma ReboundLeavesOthers(bindings: seq<Binding>, bindings': seq<Binding>, sender: int, receiver: int, b: BindData, x: int, r: int)
    requires Rebound(bindings, bindings', sender, receiver, b)
    requires b.flag.NoBind? || !(sender == x && receiver == r)
    requires x != NONE_PROC_ID
    ensures SameLinks(bindings, bindings', x, r)
  {
  }

  /** The step is a request of r about the right of x. */
  ghost predicate SetsRight(s: State, a: Action, x: int, r: int) {
    s.current == r &&
    match a
    case Call(CallSend(q)) => !q.bind.flag.NoBind? && exists i :: Addressed(s, r, q, i) && s.listeners[i].procId == x
    case Call(CallReply(info)) => !info.bind.flag.NoBind? && info.token < |s.replies| && s.replies[info.token].sender == x
    case _ => false
  }

  ghost predicate EndsParty(s: State, a: Action, x: int, r: int) {
    a.RunHead? && s.todo != [] && (s.todo[0] == IpcCleanup(x) || s.todo[0] == IpcCleanup(r))
  }

  lemma SendLeavesRight(b: Sizes, run: seq<Action>, s: State, q: Query, s': State, x: int, r: int)
    requires Reaches(b, run, s) && Enabled(s, Call(CallSend(q))) && Step(s, Call(CallSend(q))) == Ok(s')
    requires !SetsRight(s, Call(CallSend(q)), x, r) && x != NONE_PROC_ID
    ensures SameLinks(s.bindings, s'.bindings, x, r)
  {
    hide Step, Reaches, Rebound, CanBind, SameLinks, KernelSteps.Listens, MayWrite, Fits;
    MessageGetsThrough(b, run, s, q, s');
    NothingRebound(s.bindings, x, r);
    if i :| Addressed(s, s.current, q, i) {
      var h := s.listeners[i].procId;
      if HasRoom(s, h) && CanBind(s.bindings, h, s.current, q.bind) {
        assert Rebound(s.bindings, s'.bindings, h, s.current, q.bind);
        ReboundLeavesOthers(s.bindings, s'.bindings, h, s.current, q.bind, x, r);
      }
    }
  }

  lemma NothingRebound(bindings: seq<Binding>, x: int, r: int)
    ensures SameLinks(bindings, bindings, x, r)
  {
  }

  lemma ReplyLeavesRight(b: Sizes, run: seq<Action>, s: State, info: ReplyInfo, s': State, x: int, r: int)
    requires Reaches(b, run, s) && Enabled(s, Call(CallReply(info))) && Step(s, Call(CallReply(info))) == Ok(s')
    requires !SetsRight(s, Call(CallReply(info)), x, r) && x != NONE_PROC_ID
    ensures SameLinks(s.bindings, s'.bindings, x, r)
  {
    hide Step, Reaches, Rebound, CanBind, SameLinks, KernelSteps.Listens;
    ReplyLetsSenderGo(b, run, s, info, s');
    NothingRebound(s.bindings, x, r);
    if Accepted(s, s.current, info) {
      ReboundLeavesOthers(s.bindings, s'.bindings, s.replies[info.token].sender, s.current, info.bind, x, r);
    }
  }

  lemma OtherCallLeavesBindings(s: State, call: Syscall)
    requires Enabled(s, Call(call)) && !IsMessageCall(call)
    ensures match Step(s, Call(call)) case Ok(s') => s'.bindings == s.bindings case Halt(_) => true
  {
    hide Register, Acquire, Listen, Bye, Dispatch, StateDidChange;
    if KernelEffects.IsTableCall(call) {
      TableCallLeavesBindings(Entered(s), s.current, call);
    } else {
      QueueingCallLeavesTables(Entered(s), s.current, call);
    }
  }

  lemma TableCallLeavesBindings(s: State, p: int, call: Syscall)
    requires 0 <= p < |s.loops| && p < |s.mapped| && KernelEffects.IsTableCall(call)
    ensures match Perform(s, p, call) case Ok(s') => s'.bindings == s.bindings case Halt(_) => true
  {
  }

  lemma TaskLeavesRight(b: Sizes, run: seq<Action>, s: State, image: Image, s': State, x: int, r: int)
    requires Reaches(b, run, s) && Enabled(s, RunHead(image)) && Step(s, RunHead(image)) == Ok(s')
    requires !EndsParty(s, RunHead(image), x, r) && x != NONE_PROC_ID
    ensures SameLinks(s.bindings, s'.bindings, x, r)
  {
    hide Reaches, RunTask;
    if s.todo[0].IpcCleanup? {
      EndIsSettled(b, run, s, image, s.todo[0].p, s');
    } else {
      TaskLeavesTables(s, s.todo[0], image);
    }
  }

  /** No other step changes the bindings of x to r. */
  lemma StepLeavesRight(b: Sizes, run: seq<Action>, s: State, a: Action, s': State, x: int, r: int)
    requires Reaches(b, run, s) && Enabled(s, a) && Step(s, a) == Ok(s')
    requires !SetsRight(s, a, x, r) && !EndsParty(s, a, x, r) && x != NONE_PROC_ID
    ensures SameLinks(s.bindings, s'.bindings, x, r)
  {
    hide Step, Reaches, SameLinks;
    NothingRebound(s.bindings, x, r);
    match a
    case Call(call) =>
      if call.CallSend? {
        SendLeavesRight(b, run, s, call.query, s', x, r);
      } else if call.CallReply? {
        ReplyLeavesRight(b, run, s, call.info, s', x, r);
      } else {
        OtherCallLeavesBindings(s, call);
      }
    case RunHead(image) => TaskLeavesRight(b, run, s, image, s', x, r);
    case _ => OtherStepLeavesTables(s, a);
  }

  // ---------------------------------------------------------------- over whole runs

  /** In the course of the run r changes the right of x, or one of them ends. */
  ghost predicate TouchesRight(s: State, run: seq<Action>, x: int, r: int)
    decreases |run|
  {
    && run != []
    && if !Enabled(s, run[0]) then TouchesRight(s, run[1..], x, r)
       else
         || SetsRight(s, run[0], x, r) || EndsParty(s, run[0], x, r)
         || (Step(s, run[0]).Ok? && TouchesRight(Step(s, run[0]).value, run[1..], x, r))
  }

  lemma {:induction false} RightHolds(b: Sizes, before: seq<Action>, s: State, run: seq<Action>, s': State,
                                      x: int, r: int, permissions: bv32)
    requires Reaches(b, before, s) && Execute(s, run) == Ok(s') && x != NONE_PROC_ID
    requires Right(s.bindings, x, r, permissions) && !TouchesRight(s, run, x, r)
    ensures Right(s'.bindings, x, r, permissions)
    decreases |run|
  {
    hide Step, Enabled, Reaches, Right, SameLinks, SetsRight, EndsParty;
    if run != [] {
      if !Enabled(s, run[0]) {
        RightHolds(b, before, s, run[1..], s', x, r, permissions);
      } else {
        var s1 := Step(s, run[0]).value;
        StepLeavesRight(b, before, s, run[0], s1, x, r);
        SameLinksSameRight(s.bindings, s1.bindings, x, r, permissions);
        ReachedByStep(b, before, s, run[0], s1);
        RightHolds(b, before + [run[0]], s1, run[1..], s', x, r, permissions);
      }
    }
  }

  /** An update that is granted makes the right what it asks for. */
  lemma UpdateSetsRight(bindings: seq<Binding>, bindings': seq<Binding>, x: int, r: int, b: BindData)
    requires Rebound(bindings, bindings', x, r, b) && b.flag.Update?
    ensures Right(bindings', x, r, b.permissions)
  {
    var i :| Concerns(bindings, x, r, b, i) && bindings' == bindings[i := Binding(x, r, b.permissions)];
    assert LowestLink(bindings', x, r, i);
  }

  /** A reply of r that updates the right of x: from then on it is this, until r changes it again or one of them ends. */
  lemma UpdatedRightHolds(b: Sizes, before: seq<Action>, s0: State, info: ReplyInfo, s: State, run: seq<Action>, s': State)
    requires Reaches(b, before, s0) && Enabled(s0, Call(CallReply(info))) && Step(s0, Call(CallReply(info))) == Ok(s)
    requires Accepted(s0, s0.current, info) && info.bind.flag.Update?
    requires Execute(s, run) == Ok(s') && !TouchesRight(s, run, s0.replies[info.token].sender, s0.current)
    ensures Right(s'.bindings, s0.replies[info.token].sender, s0.current, info.bind.permissions)
  {
    hide Step, Enabled, Reaches, Right, TouchesRight, CanBind, Rebound, KernelSteps.Listens;
    var x := s0.replies[info.token].sender;
    ReplyLetsSenderGo(b, before, s0, info, s);
    UpdateSetsRight(s0.bindings, s.bindings, x, s0.current, info.bind);
    ReachedByStep(b, before, s0, Call(CallReply(info)), s);
    RightHolds(b, before + [Call(CallReply(info))], s, run, s', x, s0.current, info.bind.permissions);
  }
}
