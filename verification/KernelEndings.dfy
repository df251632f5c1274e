/** What the end of a process means for the others: who is let go, who is told, and what is cleared. */
module KernelEndings {
  import opened Outcomes
  import opened RunLoopSpec
  import opened KernelState
  import opened KernelInvariant
  import opened KernelSteps
  import opened KernelTasks
  import opened KernelServices
  import opened KernelReplies
  import opened KernelTheorems
  import opened KernelTables
  import KernelCalls
  import KernelRuns
  import KernelEffects

  // ---------------------------------------------------------------- tokens

  /** q waits for a reply of p, with a token from the i-th on. */
  ghost predicate WaitsFor(replies: seq<Reply>, q: int, p: int, i: nat) {
    exists k :: i <= k < |replies| && replies[k].sender == q && replies[k].handler == p
  }

  /** The tokens from the i-th on that p handles are free, and who waited with them goes on. */
  ghost predicate TokensFailed(s: State, s': State, p: int, i: nat) {
    && |s'.replies| == |s.replies| && |s'.procs| == |s.procs|
    && s' == s.(replies := s'.replies, procs := s'.procs, todo := s'.todo, elapsed := s'.elapsed)
    && (forall k :: 0 <= k < |s.replies| ==>
          s'.replies[k] == if k >= i && s.replies[k].handler == p then NO_REPLY else s.replies[k])
    && (forall q :: 0 <= q < |s.procs| ==>
          s'.procs[q] == if WaitsFor(s.replies, q, p, i) then LetGo(s.procs[q]) else s.procs[q])
  }

  lemma FailingIsReleasing(s: State, p: int, i: nat)
    requires Draining(s, p, 1) && i < |s.replies| && s.replies[i].handler == p
    ensures s.replies[i].sender != NONE_PROC_ID && FailReply(s, i) == ReleaseToken(s, i)
  {
    hide ReleaseToken, HistoryOk;
    KernelCalls.SenderOfToken(s, i);
    DrainingIsFinished(s, p, 1);
  }

  lemma {:induction false} CleanTokensFails(s: State, p: int, i: nat)
    requires Draining(s, p, 1) && i <= |s.replies|
    ensures CleanTokens(s, p, i).Ok? ==> TokensFailed(s, CleanTokens(s, p, i).value, p, i)
    decreases |s.replies| - i
  {
    hide Inv, Serving, TokensFailed, Draining, FailReply;
    if i == |s.replies| {
      NothingFailed(s, p);
    } else {
      TokenOfFinished(s, p, i);
      if s.replies[i].handler == p {
        FailingIsReleasing(s, p, i);
        FailReplyKeeps(s, p, i);
        DrainingIsSafe(s, p);
        ReleaseAnswers(s, i);
        if FailReply(s, i).Ok? {
          var s1 := FailReply(s, i).value;
          CleanTokensFails(s1, p, i + 1);
          if CleanTokens(s1, p, i + 1).Ok? {
            OneFailed(s, s1, CleanTokens(s1, p, i + 1).value, p, i);
          }
        }
      } else {
        CleanTokensFails(s, p, i + 1);
        if CleanTokens(s, p, i + 1).Ok? {
          NoneFailed(s, CleanTokens(s, p, i + 1).value, p, i);
        }
      }
    }
  }

  lemma DrainingIsSafe(s: State, p: int)
    requires Draining(s, p, 1)
    ensures Inv(s) && IsUser(s.procs, p) && |s.loops| == |s.procs|
  {
    DrainingIsFinished(s, p, 1);
  }

  lemma NothingFailed(s: State, p: int)
    ensures TokensFailed(s, s, p, |s.replies|)
  {
  }

  lemma NoneFailed(s: State, s': State, p: int, i: nat)
    requires i < |s.replies| && s.replies[i].handler != p && TokensFailed(s, s', p, i + 1)
    ensures TokensFailed(s, s', p, i)
  {
    forall q
      ensures WaitsFor(s.replies, q, p, i) <==> WaitsFor(s.replies, q, p, i + 1)
    {
    }
  }

  lemma OneFailed(s: State, s1: State, s': State, p: int, i: nat)
    requires i < |s.replies| && s.replies[i].handler == p && p != NONE_PROC_ID && TokensFailed(s1, s', p, i + 1)
    requires var x := s.replies[i].sender;
             && IsUser(s.procs, x)
             && s1 == s.(replies := s.replies[i := NO_REPLY], procs := s.procs[x := LetGo(s.procs[x])],
                         todo := s1.todo, elapsed := s1.elapsed)
    ensures TokensFailed(s, s', p, i)
  {
    var x := s.replies[i].sender;
    forall q | 0 <= q < |s.procs|
      ensures s'.procs[q] == if WaitsFor(s.replies, q, p, i) then LetGo(s.procs[q]) else s.procs[q]
    {
      OthersWaitAlike(s.replies, q, p, i);
    }
  }

  lemma OthersWaitAlike(replies: seq<Reply>, q: int, p: int, i: nat)
    requires i < |replies| && replies[i].handler == p
    ensures WaitsFor(replies, q, p, i) <==> q == replies[i].sender || WaitsFor(replies[i := NO_REPLY], q, p, i + 1)
  {
    if WaitsFor(replies, q, p, i) && q != replies[i].sender {
      var k :| i <= k < |replies| && replies[k].sender == q && replies[k].handler == p;
      assert replies[i := NO_REPLY][k].sender == q;
    }
    if WaitsFor(replies[i := NO_REPLY], q, p, i + 1) {
      var k :| i + 1 <= k < |replies| && replies[i := NO_REPLY][k].sender == q && replies[i := NO_REPLY][k].handler == p;
      assert replies[k].sender == q;
    }
  }

  // ---------------------------------------------------------------- bindings

  predicate Names(b: Binding, p: int) {
    b.sender == p || b.receiver == p
  }

  /** The same entries n times. */
  function Times(f: Fifo<Message>, n: nat): Fifo<Message> {
    if n == 0 then [] else f + Times(f, n - 1)
  }

  /** How many notices q gets when the bindings from the i-th on that name p end. */
  ghost function NoticesTo(s: State, p: int, i: nat, q: int): nat
    requires i <= |s.bindings|
  {
    if Listens(s.listeners, q) then Notices(s.bindings, p, i, q) else 0
  }

  /** The bindings from the i-th on that name p are free, and the receivers of those that p sends over are told. */
  ghost predicate BindingsEnded(s: State, s': State, p: int, i: nat)
    requires i <= |s.bindings|
  {
    && |s'.bindings| == |s.bindings| && |s'.procs| == |s.procs| && |s'.loops| == |s.loops| == |s.procs|
    && s' == s.(bindings := s'.bindings, procs := s'.procs, loops := s'.loops, todo := s'.todo, elapsed := s'.elapsed, mail := s'.mail)
    && (forall k :: 0 <= k < |s.bindings| ==>
          s'.bindings[k] == if k >= i && Names(s.bindings[k], p) then NO_BINDING else s.bindings[k])
    && (forall q :: 0 <= q < |s.procs| ==>
          && s'.loops[q] == s.loops[q] + Times(Notice(s), NoticesTo(s, p, i, q))
          && s'.procs[q] == if NoticesTo(s, p, i, q) > 0 then Heard(s.procs[q]) else s.procs[q])
  }

  /** One binding that p sends over ends, and its receiver is told. */
  lemma DestroyingTells(s: State, i: nat, p: int)
    requires i < |s.bindings| && |s.loops| == |s.procs|
    ensures match DestroyBindingAt(s, i, p)
            case Ok(s') =>
              var target := OtherParty(s.bindings[i], p);
              && GivesNotice(s, s', target, Listens(s.listeners, target))
              && s'.bindings == s.bindings[i := NO_BINDING] && s'.log == s.log
            case Halt(_) => true
  {
    hide NotifySessionDestroyed, Listens, Arrives;
    var target := OtherParty(s.bindings[i], p);
    NotifyArrives(s, target);
    var r := NotifySessionDestroyed(s, target);
    if r.Ok? {
      NoticeIsApart(s, r.value, target, s.bindings[i := NO_BINDING]);
    }
  }

  lemma {:induction false} CleanBindingsEnds(s: State, p: int, i: nat)
    requires i <= |s.bindings| && |s.loops| == |s.procs| && p != NONE_PROC_ID
    ensures CleanBindings(s, p, i).Ok? ==> BindingsEnded(s, CleanBindings(s, p, i).value, p, i)
    decreases |s.bindings| - i
  {
    hide BindingsEnded, DestroyBindingAt, Listens;
    if i == |s.bindings| {
      NothingEnded(s, p);
    } else if s.bindings[i].sender == p {
      DestroyingTells(s, i, p);
      if DestroyBindingAt(s, i, p).Ok? {
        var s1 := DestroyBindingAt(s, i, p).value;
        CleanBindingsEnds(s1, p, i + 1);
        if CleanBindings(s1, p, i + 1).Ok? {
          OneEnded(s, s1, CleanBindings(s1, p, i + 1).value, p, i);
        }
      }
    } else {
      var s1 := if s.bindings[i].receiver == p then s.(bindings := s.bindings[i := NO_BINDING]) else s;
      CleanBindingsEnds(s1, p, i + 1);
      if CleanBindings(s1, p, i + 1).Ok? {
        NoneTold(s, s1, CleanBindings(s1, p, i + 1).value, p, i);
      }
    }
  }

  lemma NothingEnded(s: State, p: int)
    requires |s.loops| == |s.procs|
    ensures BindingsEnded(s, s, p, |s.bindings|)
  {
    hide Listens;
    assert forall q :: 0 <= q < |s.procs| ==> s.loops[q] + [] == s.loops[q];
  }

  lemma NoneTold(s: State, s1: State, s': State, p: int, i: nat)
    requires i < |s.bindings| && s.bindings[i].sender != p && |s.loops| == |s.procs| && p != NONE_PROC_ID
    requires s1 == if Names(s.bindings[i], p) then s.(bindings := s.bindings[i := NO_BINDING]) else s
    requires BindingsEnded(s1, s', p, i + 1)
    ensures BindingsEnded(s, s', p, i)
  {
    hide Listens;
    forall q
      ensures NoticesTo(s, p, i, q) == NoticesTo(s1, p, i + 1, q)
    {
      LaterNotices(s.bindings, s1.bindings, p, i + 1, q);
    }
  }

  lemma OneEnded(s: State, s1: State, s': State, p: int, i: nat)
    requires i < |s.bindings| && s.bindings[i].sender == p && |s.loops| == |s.procs| && p != NONE_PROC_ID
    requires s1.bindings == s.bindings[i := NO_BINDING] && s1.log == s.log
    requires var target := OtherParty(s.bindings[i], p); GivesNotice(s, s1, target, Listens(s.listeners, target))
    requires |s1.loops| == |s1.procs| && BindingsEnded(s1, s', p, i + 1)
    ensures BindingsEnded(s, s', p, i)
  {
    hide Listens, Reevaluates, Notice;
    var target := OtherParty(s.bindings[i], p);
    assert Notice(s1) == Notice(s) by { SameNotice(s, s1); }
    forall q | 0 <= q < |s.procs|
      ensures s'.loops[q] == s.loops[q] + Times(Notice(s), NoticesTo(s, p, i, q))
      ensures s'.procs[q] == if NoticesTo(s, p, i, q) > 0 then Heard(s.procs[q]) else s.procs[q]
    {
      LaterNotices(s.bindings, s1.bindings, p, i + 1, q);
      var n := NoticesTo(s1, p, i + 1, q);
      if q == target && Listens(s.listeners, q) {
        assert NoticesTo(s, p, i, q) == n + 1;
        assert s.loops[q] + Notice(s) + Times(Notice(s), n) == s.loops[q] + Times(Notice(s), n + 1);
      } else {
        assert NoticesTo(s, p, i, q) == n;
      }
    }
  }

  lemma SameNotice(s: State, s1: State)
    requires |s1.replies| == |s.replies|
    ensures Notice(s1) == Notice(s)
  {
  }

  // ---------------------------------------------------------------- the whole IPC cleanup

  /** How many notices q gets at the end of p. */
  ghost function ToldOf(s: State, p: int, q: int): nat {
    if q != p && Listens(s.listeners, q) then Notices(s.bindings, p, 0, q) else 0
  }

  /** What the end of p is for process q: it goes on if it waited for a reply of p, and hears of its bindings to p. */
  ghost function AfterEnd(s: State, p: int, q: int): Proc
    requires IsUser(s.procs, q)
  {
    var w := if WaitsFor(s.replies, q, p, 0) then LetGo(s.procs[q]) else s.procs[q];
    if ToldOf(s, p, q) > 0 then Heard(w) else w
  }

  lemma OthersStillListen(s: State, p: int, q: int)
    ensures Listens(WithoutListenersOf(s.listeners, p), q) <==> q != p && Listens(s.listeners, q)
  {
    hide IpcPath.Matches;
    var cleared := WithoutListenersOf(s.listeners, p);
    NobodyListensOnNothing();
    if q != p && Listens(s.listeners, q) {
      var i :| 0 <= i < |s.listeners| && ListensAt(s.listeners[i], q);
      assert ListensAt(cleared[i], q);
    }
    if Listens(cleared, q) {
      var i :| 0 <= i < |cleared| && ListensAt(cleared[i], q);
      assert cleared[i] == s.listeners[i];
    }
  }

  lemma NobodyListensOnNothing()
    ensures forall q :: !ListensAt(NO_LISTENER, q)
  {
  }

  /**
    * The IPC cleanup of p clears the listeners, tokens and bindings that name p and no others; it lets exactly those go who
    * waited for a reply of p, and tells exactly those who hear of destroyed bindings, once for each that p sent over.
    */
  lemma EndIsSettled(b: Sizes, run: seq<Action>, s: State, image: Image, p: int, s': State)
    requires Reaches(b, run, s) && Enabled(s, RunHead(image)) && s.todo[0] == IpcCleanup(p) && Step(s, RunHead(image)) == Ok(s')
    ensures |s'.listeners| == |s.listeners| && |s'.replies| == |s.replies| && |s'.bindings| == |s.bindings|
    ensures forall i :: 0 <= i < |s.listeners| ==>
      s'.listeners[i] == if s.listeners[i].procId == p then NO_LISTENER else s.listeners[i]
    ensures forall i :: 0 <= i < |s.replies| ==> s'.replies[i] == if s.replies[i].handler == p then NO_REPLY else s.replies[i]
    ensures forall i :: 0 <= i < |s.bindings| ==>
      s'.bindings[i] == if Names(s.bindings[i], p) then NO_BINDING else s.bindings[i]
    ensures |s'.procs| == |s.procs| == |s'.loops| == |s.loops|
    ensures forall q :: 0 <= q < |s.procs| ==>
      s'.procs[q] == AfterEnd(s, p, q) && s'.loops[q] == s.loops[q] + Times(Notice(s), ToldOf(s, p, q))
    ensures s'.devices == s.devices && s'.mapped == s.mapped && s'.log == s.log
  {
    hide Inv, CleanTokens, CleanBindings, Listens, Notice, WaitsFor, LetGo, Heard, Times, Notices;
    ReachedIsSafe(b, run, s);
    CleanupIsUnderWay(s, p, image);
    ListenersCleared(s, p);
    var s0 := s.(listeners := WithoutListenersOf(s.listeners, p));
    DrainingIsSafe(s0, p);
    CleanTokensFails(s0, p, 0);
    var r := CleanTokens(s0, p, 0);
    if r.Ok? {
      CleanBindingsEnds(r.value, p, 0);
      SameNotice(s, r.value);
      forall q
        ensures NoticesTo(r.value, p, 0, q) == ToldOf(s, p, q)
      {
        OthersStillListen(s, p, q);
      }
    }
  }

  lemma CleanupIsUnderWay(s: State, p: int, image: Image)
    requires Inv(s) && Enabled(s, RunHead(image)) && s.todo[0] == IpcCleanup(p)
    ensures Draining(s, p, 1)
    ensures RunTask(s, s.todo[0], image) == CleanIpc(s, p)
  {
    hide Inv, CleanIpc;
  }

  // ---------------------------------------------------------------- how the wait for a reply ends

  /** The handler of token i accepts to answer it, or is gone and its IPC cleanup runs. */
  ghost predicate Settles(s: State, a: Action, i: nat)
    requires i < |s.replies|
  {
    match a
    case Call(CallReply(r)) => r.token == i && Accepted(s, s.current, r)
    case RunHead(_) => s.todo != [] && s.todo[0] == IpcCleanup(s.replies[i].handler)
    case _ => false
  }

  lemma SendLeavesOtherTokens(b: Sizes, run: seq<Action>, s: State, q: Query, s': State, i: nat)
    requires Reaches(b, run, s) && Enabled(s, Call(CallSend(q))) && Step(s, Call(CallSend(q))) == Ok(s')
    requires i < |s.replies| && s.replies[i].sender != NONE_PROC_ID
    ensures |s'.replies| == |s.replies| && s'.replies[i] == s.replies[i]
  {
    hide Step, Reaches, Rebound, CanBind, Listens, MayWrite, Fits;
    MessageGetsThrough(b, run, s, q, s');
    if k :| Addressed(s, s.current, q, k) {
      assert HasRoom(s, s.listeners[k].procId) || Undelivered(Entered(s), s', s.current, q);
    }
  }

  lemma OtherCallLeavesTokens(s: State, call: Syscall)
    requires Enabled(s, Call(call)) && !IsMessageCall(call)
    ensures match Step(s, Call(call)) case Ok(s') => s'.replies == s.replies case Halt(_) => true
  {
    hide Register, Acquire, Listen, Bye, Dispatch, StateDidChange;
    if KernelEffects.IsTableCall(call) {
      TableCallLeavesTokens(Entered(s), s.current, call);
    } else {
      QueueingCallLeavesTables(Entered(s), s.current, call);
    }
  }

  lemma TableCallLeavesTokens(s: State, p: int, call: Syscall)
    requires 0 <= p < |s.loops| && p < |s.mapped| && KernelEffects.IsTableCall(call)
    ensures match Perform(s, p, call) case Ok(s') => s'.replies == s.replies case Halt(_) => true
  {
  }

  lemma TaskLeavesTokens(s: State, image: Image)
    requires Enabled(s, RunHead(image)) && !s.todo[0].IpcCleanup?
    ensures match Step(s, RunHead(image)) case Ok(s') => s'.replies == s.replies case Halt(_) => true
  {
    hide RunTask;
    TaskLeavesTables(s, s.todo[0], image);
  }

  lemma CallSettles(b: Sizes, run: seq<Action>, s: State, call: Syscall, s': State, i: nat)
    requires Reaches(b, run, s) && Enabled(s, Call(call)) && Step(s, Call(call)) == Ok(s')
    requires i < |s.replies| && s.replies[i].sender != NONE_PROC_ID
    ensures |s'.replies| == |s.replies| && s'.replies[i] == if Settles(s, Call(call), i) then NO_REPLY else s.replies[i]
    ensures Settles(s, Call(call), i) ==> var x := s.replies[i].sender; IsUser(s'.procs, x) && !s'.procs[x].ipc
  {
    hide Step, Reaches, CanBind, Rebound, Listens;
    match call
    case CallSend(q) => SendLeavesOtherTokens(b, run, s, q, s', i);
    case CallReply(r) => ReplyLetsSenderGo(b, run, s, r, s');
    case _ => OtherCallLeavesTokens(s, call);
  }

  lemma TaskSettles(b: Sizes, run: seq<Action>, s: State, image: Image, s': State, i: nat)
    requires Reaches(b, run, s) && Enabled(s, RunHead(image)) && Step(s, RunHead(image)) == Ok(s')
    requires i < |s.replies| && s.replies[i].sender != NONE_PROC_ID && IsUser(s.procs, s.replies[i].sender)
    ensures |s'.replies| == |s.replies| && s'.replies[i] == if Settles(s, RunHead(image), i) then NO_REPLY else s.replies[i]
    ensures Settles(s, RunHead(image), i) ==> var x := s.replies[i].sender; IsUser(s'.procs, x) && !s'.procs[x].ipc
  {
    hide Step, Reaches, Listens, ToldOf;
    if s.todo[0].IpcCleanup? {
      EndIsSettled(b, run, s, image, s.todo[0].p, s');
    } else {
      TaskLeavesTokens(s, image);
    }
  }

  lemma OwnerIsBlocked(s: State, i: nat)
    requires Inv(s) && i < |s.replies| && s.replies[i].sender != NONE_PROC_ID
    ensures IsUser(s.procs, s.replies[i].sender) && s.procs[s.replies[i].sender].ipc
    ensures s.replies[i].handler != NONE_PROC_ID
  {
    hide HistoryOk;
  }

  /** A request stays open, and its sender blocked, until its handler answers it or is gone: no other step ends the wait. */
  lemma RequestEndsIff(b: Sizes, run: seq<Action>, s: State, a: Action, s': State, i: nat)
    requires Reaches(b, run, s) && Enabled(s, a) && Step(s, a) == Ok(s')
    requires i < |s.replies| && s.replies[i].sender != NONE_PROC_ID
    ensures |s'.replies| == |s.replies| && IsUser(s'.procs, s.replies[i].sender)
    ensures s'.replies[i] == if Settles(s, a, i) then NO_REPLY else s.replies[i]
    ensures s'.procs[s.replies[i].sender].ipc <==> !Settles(s, a, i)
  {
    hide Inv, Enabled, Step, Reaches, Accepted, CleanIpc;
    ReachedIsSafe(b, run, s);
    KernelRuns.StepKeeps(s, a);
    OwnerIsBlocked(s, i);
    match a {
      case Call(call) => CallSettles(b, run, s, call, s', i);
      case RunHead(image) => TaskSettles(b, run, s, image, s', i);
      case _ => OtherStepLeavesTables(s, a);
    }
    if !Settles(s, a, i) {
      OwnerIsBlocked(s', i);
    }
  }
}
