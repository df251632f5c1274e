/** What a kernel function does, whatever it is for: to whose turn it is, to the queue, to the run loops. */
module KernelEffects {
  import opened Outcomes
  import opened RunLoopSpec
  import opened KernelState
  import opened KernelInvariant

  // ---------------------------------------------------------------- turns

  /** The processes that were given the processor, in order. */
  function Switches(log: seq<Event>): seq<int> {
    if log == [] then []
    else Switches(log[..|log| - 1]) + if log[|log| - 1].Switched? then [log[|log| - 1].p] else []
  }

  /** How often the processor went to another process than the one that had it before. */
  function Changes(log: seq<Event>): nat {
    if log == [] then 0
    else
      var before := log[..|log| - 1];
      Changes(before) + if log[|log| - 1].Switched? && log[|log| - 1].p != LastSwitched(before) then 1 else 0
  }

  lemma Logged(log: seq<Event>, e: Event)
    ensures LastSwitched(log + [e]) == if e.Switched? then e.p else LastSwitched(log)
    ensures Changes(log + [e]) == Changes(log) + if e.Switched? && e.p != LastSwitched(log) then 1 else 0
    ensures Switches(log + [e]) == Switches(log) + if e.Switched? then [e.p] else []
  {
    assert (log + [e])[..|log|] == log;
  }

  ghost predicate SameTurns(a: seq<Event>, b: seq<Event>) {
    LastSwitched(a) == LastSwitched(b) && Changes(a) == Changes(b) && Switches(a) == Switches(b)
  }

  /** Tasks are only ever added, and behind the others. */
  ghost predicate Appends(s: State, s': State) {
    s'.head == s.head && s.todo <= s'.todo
  }

  ghost predicate KeepsTurn(s: State, s': State) {
    && s'.next == s.next && s'.last == s.last && s'.resuming == s.resuming
    && |s'.procs| == |s.procs| && SameTurns(s.log, s'.log)
    && Appends(s, s')
  }

  // ---------------------------------------------------------------- mail

  /** What was delivered to q in its current life, oldest first. */
  function Arrivals(mail: seq<Mail>, q: int): seq<Message> {
    if mail == [] then []
    else
      var before := Arrivals(mail[..|mail| - 1], q);
      match mail[|mail| - 1]
      case Born(p) => if p == q then [] else before
      case Gone(p) => if p == q then [] else before
      case Delivered(message, target) => if target == q then before + [message] else before
      case Collected(_) => before
  }

  /** How many of these deliveries q has collected. */
  function Collections(mail: seq<Mail>, q: int): nat {
    if mail == [] then 0
    else
      var before := Collections(mail[..|mail| - 1], q);
      match mail[|mail| - 1]
      case Born(p) => if p == q then 0 else before
      case Gone(p) => if p == q then 0 else before
      case Delivered(_, _) => before
      case Collected(p) => if p == q then before + 1 else before
  }

  lemma Mailed(mail: seq<Mail>, m: Mail, q: int)
    ensures Arrivals(mail + [m], q) ==
              if (m.Born? || m.Gone?) && m.p == q then []
              else if m.Delivered? && m.target == q then Arrivals(mail, q) + [m.message]
              else Arrivals(mail, q)
    ensures Collections(mail + [m], q) ==
              if (m.Born? || m.Gone?) && m.p == q then 0
              else if m.Collected? && m.p == q then Collections(mail, q) + 1
              else Collections(mail, q)
  {
    assert (mail + [m])[..|mail|] == mail;
  }

  /** The messages in a run loop, read or not. */
  function Messages(f: Fifo<Message>): seq<Message> {
    seq(|f|, i requires 0 <= i < |f| => if f[i].Filled? then f[i].item else Message(NONE_PROC_ID, 0))
  }

  /** Every run loop holds what was delivered in this life and not collected, in the order of delivery. */
  ghost predicate MailOk(s: State) {
    forall q :: 0 <= q < |s.loops| ==> LoopRecorded(s.loops[q], s.mail, q)
  }

  ghost predicate LoopRecorded(f: Fifo<Message>, mail: seq<Mail>, q: int) {
    && Collections(mail, q) <= |Arrivals(mail, q)|
    && Messages(f) == Arrivals(mail, q)[Collections(mail, q)..]
  }

  ghost predicate KeepsMail(s: State, s': State) {
    |s'.loops| == |s.loops| && (MailOk(s) ==> MailOk(s'))
  }

  /** One entry of the record and one run loop change together. */
  lemma MailChange(s: State, p: int, f: Fifo<Message>, m: Mail)
    requires 0 <= p < |s.loops|
    requires forall q :: q != p ==> !ConcernsLoop(m, q)
    requires MailOk(s) ==> LoopRecorded(f, s.mail + [m], p)
    ensures KeepsMail(s, s.(loops := s.loops[p := f], mail := s.mail + [m]))
  {
    hide LoopRecorded;
    var loops := s.loops[p := f];
    if MailOk(s) {
      forall q | 0 <= q < |s.loops|
        ensures LoopRecorded(loops[q], s.mail + [m], q)
      {
        if q != p {
          assert !ConcernsLoop(m, q);
          OtherLoop(s.loops[q], s.mail, m, q);
        }
      }
    }
  }

  predicate ConcernsLoop(m: Mail, q: int) {
    if m.Delivered? then m.target == q else m.p == q
  }

  lemma OtherLoop(f: Fifo<Message>, mail: seq<Mail>, m: Mail, q: int)
    requires LoopRecorded(f, mail, q) && !ConcernsLoop(m, q)
    ensures LoopRecorded(f, mail + [m], q)
  {
    Mailed(mail, m, q);
  }

  lemma DeliveryIsRecorded(f: Fifo<Message>, mail: seq<Mail>, q: int, e: Entry<Message>)
    requires LoopRecorded(f, mail, q) && e.Filled?
    ensures LoopRecorded(f + [e], mail + [Delivered(e.item, q)], q)
  {
    Mailed(mail, Delivered(e.item, q), q);
    assert Messages(f + [e]) == Messages(f) + [e.item];
  }

  lemma CollectionIsRecorded(f: Fifo<Message>, mail: seq<Mail>, q: int)
    requires LoopRecorded(f, mail, q) && f != []
    ensures LoopRecorded(f[1..], mail + [Collected(q)], q)
  {
    Mailed(mail, Collected(q), q);
    assert Messages(f[1..]) == Messages(f)[1..];
  }

  lemma MarkingIsRecorded(f: Fifo<Message>, f': Fifo<Message>, mail: seq<Mail>, q: int)
    requires LoopRecorded(f, mail, q) && Messages(f') == Messages(f)
    ensures LoopRecorded(f', mail, q)
  {
  }

  lemma EmptyingIsRecorded(mail: seq<Mail>, m: Mail, q: int)
    requires m == Born(q) || m == Gone(q)
    ensures LoopRecorded([], mail + [m], q)
  {
    Mailed(mail, m, q);
    assert Messages([]) == [];
  }

  // ---------------------------------------------------------------- room in the queue

  /** The tasks one process can still give rise to: one for each delivery into its run loop, and one when it is unblocked. */
  function Slack(q: Proc, f: Fifo<Message>): nat {
    if !q.Alive() then DISPATCH_QUEUE_SIZE
    else (if IsFull(f) then 0 else DISPATCH_QUEUE_SIZE - |f|) + if q.state.Blocked? then 1 else 0
  }

  function TotalSlack(procs: seq<Proc>, loops: seq<Fifo<Message>>): nat
    requires |procs| == |loops|
  {
    if procs == [] then 0
    else
      var n := |procs| - 1;
      TotalSlack(procs[..n], loops[..n]) + Slack(procs[n], loops[n])
  }

  /** A process that will wait for events is blocked for it, and unblocked. */
  function WaitTasks(todo: seq<Task>): nat {
    if todo == [] then 0
    else WaitTasks(todo[..|todo| - 1]) + if todo[|todo| - 1].WaitForEvent? then 1 else 0
  }

  /** How long the queue can become before the processor is handed over, without another system call. */
  function Demand(s: State): int {
    QueueLength(s) + 2 * WaitTasks(s.todo) + (if s.elapsed < GRANULARITY_MS then 1 else 0)
    + if |s.procs| == |s.loops| then TotalSlack(s.procs, s.loops) else 0
  }

  lemma {:induction false} SlackChange(procs: seq<Proc>, loops: seq<Fifo<Message>>, p: int, q: Proc, f: Fifo<Message>)
    requires |procs| == |loops| && 0 <= p < |procs|
    ensures TotalSlack(procs[p := q], loops[p := f]) == TotalSlack(procs, loops) - Slack(procs[p], loops[p]) + Slack(q, f)
  {
    hide Slack;
    var n := |procs| - 1;
    if p < n {
      SlackChange(procs[..n], loops[..n], p, q, f);
      assert procs[p := q][..n] == procs[..n][p := q] && loops[p := f][..n] == loops[..n][p := f];
    } else {
      assert procs[p := q][..n] == procs[..n] && loops[p := f][..n] == loops[..n];
    }
  }

  lemma ProcSlack(s: State, p: int, q: Proc)
    requires |s.procs| == |s.loops| && IsUser(s.procs, p)
    ensures TotalSlack(s.procs[p := q], s.loops) == TotalSlack(s.procs, s.loops) - Slack(s.procs[p], s.loops[p]) + Slack(q, s.loops[p])
  {
    hide Slack, TotalSlack;
    SlackChange(s.procs, s.loops, p, q, s.loops[p]);
    assert s.loops[p := s.loops[p]] == s.loops;
  }

  lemma LoopSlack(s: State, p: int, f: Fifo<Message>)
    requires |s.procs| == |s.loops| && IsUser(s.procs, p)
    ensures TotalSlack(s.procs, s.loops[p := f]) == TotalSlack(s.procs, s.loops) - Slack(s.procs[p], s.loops[p]) + Slack(s.procs[p], f)
  {
    hide Slack, TotalSlack;
    SlackChange(s.procs, s.loops, p, s.procs[p], f);
    assert s.procs[p := s.procs[p]] == s.procs;
  }

  lemma {:induction false} SlackBound(procs: seq<Proc>, loops: seq<Fifo<Message>>)
    requires |procs| == |loops|
    ensures TotalSlack(procs, loops) <= (DISPATCH_QUEUE_SIZE + 1) * |procs|
  {
    if procs != [] {
      SlackBound(procs[..|procs| - 1], loops[..|procs| - 1]);
    }
  }

  lemma QueuedWaits(todo: seq<Task>, t: Task)
    ensures WaitTasks(todo + [t]) == WaitTasks(todo) + if t.WaitForEvent? then 1 else 0
  {
    assert (todo + [t])[..|todo|] == todo;
  }

  lemma {:induction false} RetiredWaits(todo: seq<Task>)
    requires todo != []
    ensures WaitTasks(todo[1..]) == WaitTasks(todo) - if todo[0].WaitForEvent? then 1 else 0
    decreases |todo|
  {
    var n := |todo| - 1;
    if n > 0 {
      RetiredWaits(todo[..n]);
      assert todo[..n][1..] == todo[1..][..n - 1];
    }
  }

  /** A change of the demand, with the sizes of the tables kept. */
  ghost predicate Spends(s: State, s': State, cost: int) {
    |s.procs| == |s.loops| ==> |s'.procs| == |s'.loops| && Demand(s') <= Demand(s) + cost
  }

  ghost predicate Overfull(s: State, cost: int) {
    |s.procs| == |s.loops| ==> Demand(s) + cost > MAX_QUEUE_LENGTH
  }

  // ---------------------------------------------------------------- who waits, and for what

  ghost predicate HeardSince(mail: seq<Mail>, n: nat, q: int) {
    exists k :: n <= k < |mail| && mail[k].Delivered? && mail[k].target == q
  }

  ghost predicate DeliveredSince(mail: seq<Mail>, n: nat, m: Message, q: int) {
    exists k :: n <= k < |mail| && mail[k] == Delivered(m, q)
  }

  /** The record went on, and no life began or ended. */
  ghost predicate SameLives(mail: seq<Mail>, mail': seq<Mail>) {
    mail <= mail' && forall k :: |mail| <= k < |mail'| ==> !mail'[k].Born? && !mail'[k].Gone?
  }

  /** Who waits for an event goes on waiting until something is delivered to it. */
  ghost predicate KeepsWaiting(s: State, s': State) {
    && |s'.procs| == |s.procs|
    && forall p :: 0 <= p < |s.procs| && s.procs[p].event ==> s'.procs[p].event || HeardSince(s'.mail, |s.mail|, p)
  }

  /** A reply token stays as it is, or becomes free, or went out with a message to its handler. */
  ghost predicate KeepsTokens(s: State, s': State) {
    |s'.replies| == |s.replies| && forall i :: 0 <= i < |s.replies| ==> TokenKept(s.replies[i], s'.replies[i], i, s'.mail, |s.mail|)
  }

  ghost predicate TokenKept(r: Reply, r': Reply, i: nat, mail: seq<Mail>, n: nat) {
    r' == r || r' == NO_REPLY || DeliveredSince(mail, n, Message(r'.sender, i), r'.handler)
  }

  /** The time slice goes on unless an evaluation is queued. */
  predicate KeepsSlice(s: State, s': State) {
    s.todo <= s'.todo && (s'.elapsed == s.elapsed || Evaluate in s'.todo)
  }

  ghost predicate Calm(s: State, s': State) {
    && s' == s.(procs := s'.procs, todo := s'.todo, elapsed := s'.elapsed, loops := s'.loops,
                replies := s'.replies, bindings := s'.bindings, log := s'.log, mail := s'.mail)
    && SameLives(s.mail, s'.mail)
    && KeepsWaiting(s, s') && KeepsTokens(s, s') && KeepsSlice(s, s')
  }

  lemma CalmOn(s: State, s1: State, s2: State)
    requires Calm(s, s1) && Calm(s1, s2)
    ensures Calm(s, s2)
  {
    hide KeepsWaiting, KeepsTokens;
    WaitingOn(s, s1, s2);
    TokensOn(s, s1, s2);
  }

  lemma WaitingOn(s: State, s1: State, s2: State)
    requires KeepsWaiting(s, s1) && KeepsWaiting(s1, s2) && s.mail <= s1.mail <= s2.mail
    ensures KeepsWaiting(s, s2)
  {
  }

  lemma TokensOn(s: State, s1: State, s2: State)
    requires KeepsTokens(s, s1) && KeepsTokens(s1, s2) && s.mail <= s1.mail <= s2.mail
    ensures KeepsTokens(s, s2)
  {
    hide DeliveredSince;
    forall i | 0 <= i < |s.replies|
      ensures TokenKept(s.replies[i], s2.replies[i], i, s2.mail, |s.mail|)
    {
      var m, h := Message(s2.replies[i].sender, i), s2.replies[i].handler;
      assert TokenKept(s.replies[i], s1.replies[i], i, s1.mail, |s.mail|);
      assert TokenKept(s1.replies[i], s2.replies[i], i, s2.mail, |s1.mail|);
      LongerRecord(s1.mail, s2.mail, |s.mail|, |s1.mail|, m, h);
    }
  }

  lemma LongerRecord(mail: seq<Mail>, mail': seq<Mail>, n: nat, n1: nat, m: Message, q: int)
    requires mail <= mail' && n <= n1
    ensures DeliveredSince(mail, n, m, q) || DeliveredSince(mail', n1, m, q) ==> DeliveredSince(mail', n, m, q)
  {
  }

  // ---------------------------------------------------------------- all of it

  /** The outcome keeps turns and run loops in order, and asks for no more room than it may cost. */
  ghost predicate Regular(s: State, r: Outcome<State>, cost: int) {
    match r
    case Ok(s') => KeepsTurn(s, s') && KeepsMail(s, s') && Spends(s, s', cost)
    case Halt(why) => why == QueueFull ==> Overfull(s, cost)
  }

  /** Besides, it lets go of nobody and leaves no token unexplained. */
  ghost predicate Orderly(s: State, r: Outcome<State>, cost: int) {
    Regular(s, r, cost) && (r.Ok? ==> Calm(s, r.value))
  }

  function First<T>(r: Outcome<(State, T)>): Outcome<State> {
    match r
    case Ok((s, _)) => Ok(s)
    case Halt(why) => Halt(why)
  }

  lemma Then(s: State, s1: State, r: Outcome<State>, first: int, second: int)
    requires Regular(s, Ok(s1), first) && Regular(s1, r, second)
    ensures Regular(s, r, first + second)
    ensures Calm(s, s1) && r.Ok? && Calm(s1, r.value) ==> Calm(s, r.value)
  {
    hide Demand, LastSwitched, Changes, Switches, MailOk, Calm;
    if Calm(s, s1) && r.Ok? && Calm(s1, r.value) {
      CalmOn(s, s1, r.value);
    }
  }

  lemma Cheaper(s: State, r: Outcome<State>, cost: int, more: int)
    requires Regular(s, r, cost) && cost <= more
    ensures Regular(s, r, more)
  {
    hide KeepsTurn, KeepsMail, Demand;
  }

  /** Neither turns nor queue nor run loops. */
  ghost predicate Elsewhere(s: State, s': State) {
    s' == s.(replies := s'.replies, bindings := s'.bindings, listeners := s'.listeners, devices := s'.devices, mapped := s'.mapped)
  }

  lemma ElsewhereIsRegular(s: State, s': State)
    requires Elsewhere(s, s')
    ensures Regular(s, Ok(s'), 0)
  {
    hide LastSwitched, Changes, Switches, LoopRecorded, TotalSlack, WaitTasks;
  }

  /** Bindings change, and tokens become free. */
  ghost predicate OnlyClears(s: State, s': State) {
    && s' == s.(replies := s'.replies, bindings := s'.bindings)
    && |s'.replies| == |s.replies|
    && forall i :: 0 <= i < |s.replies| ==> s'.replies[i] == s.replies[i] || s'.replies[i] == NO_REPLY
  }

  lemma ClearingIsOrderly(s: State, s': State)
    requires OnlyClears(s, s')
    ensures Orderly(s, Ok(s'), 0)
  {
    hide Regular;
    ElsewhereIsRegular(s, s');
  }

  lemma NotingIsOrderly(s: State, e: Event)
    requires !e.Switched?
    ensures Orderly(s, Ok(s.(log := s.log + [e])), 0)
  {
    hide LastSwitched, Changes, Switches, LoopRecorded, TotalSlack, WaitTasks;
    Logged(s.log, e);
  }

  lemma DispatchIsOrderly(s: State, t: Task)
    ensures Orderly(s, Dispatch(s, t), if t.WaitForEvent? then 3 else 1)
  {
    hide LastSwitched, Changes, Switches, LoopRecorded, TotalSlack, WaitTasks;
    QueuedWaits(s.todo, t);
  }

  lemma StateDidChangeIsOrderly(s: State)
    ensures Orderly(s, StateDidChange(s), 1)
  {
    hide LastSwitched, Changes, Switches, LoopRecorded, TotalSlack, WaitTasks;
    QueuedWaits(s.todo, Evaluate);
  }

  lemma TickIsRegular(s: State)
    ensures Regular(s, OnTick(s), 0)
  {
    hide LastSwitched, Changes, Switches, LoopRecorded, TotalSlack, WaitTasks;
    QueuedWaits(s.todo, Evaluate);
  }

  /** One process changes its state or its locks. */
  lemma ProcIsOrderly(s: State, p: int, q: Proc)
    requires IsUser(s.procs, p)
    ensures var cost := if p < |s.loops| then Slack(q, s.loops[p]) - Slack(s.procs[p], s.loops[p]) else 0;
            Regular(s, Ok(SetProc(s, p, q)), cost)
    ensures (s.procs[p].event ==> q.event) ==> Calm(s, SetProc(s, p, q))
  {
    hide LastSwitched, Changes, Switches, LoopRecorded, TotalSlack, WaitTasks, Slack;
    if |s.procs| == |s.loops| {
      ProcSlack(s, p, q);
    }
  }

  lemma LockIsOrderly(s: State, p: int, l: Lock)
    ensures Orderly(s, LockProc(s, p, l), 2)
  {
    hide KeepsTurn, KeepsMail, Spends, Overfull, StateDidChange, Calm;
    if IsUser(s.procs, p) {
      var q := s.procs[p].With(l);
      ProcIsOrderly(s, p, q);
      Cheap(s, p, q);
      if !q.state.Blocked? && (q.state.Ready? || q.state.Running?) {
        ProcIsOrderly(s, p, q.(state := Blocked));
        var s1 := SetProc(s, p, q.(state := Blocked));
        Cheaper(s, Ok(s1), if p < |s.loops| then Slack(s1.procs[p], s.loops[p]) - Slack(s.procs[p], s.loops[p]) else 0, 1);
        StateDidChangeIsOrderly(s1);
        Then(s, s1, StateDidChange(s1), 1, 1);
      }
    }
  }

  /** Locks alone do not matter. */
  lemma Cheap(s: State, p: int, q: Proc)
    requires IsUser(s.procs, p) && q.state == s.procs[p].state
    ensures Regular(s, Ok(SetProc(s, p, q)), 0)
    ensures Regular(s, Ok(SetProc(s, p, q)), 2)
    ensures (s.procs[p].event ==> q.event) ==> Calm(s, SetProc(s, p, q))
  {
    hide KeepsTurn, KeepsMail, Demand;
    ProcIsOrderly(s, p, q);
  }

  lemma UnlockIsOrderly(s: State, p: int, l: Lock)
    ensures Regular(s, UnlockProc(s, p, l), 0)
    ensures l.IpcLock? ==> Orderly(s, UnlockProc(s, p, l), 0)
  {
    hide KeepsTurn, KeepsMail, Spends, Overfull, StateDidChange, Calm;
    if IsUser(s.procs, p) {
      var q := s.procs[p].Without(l);
      Cheap(s, p, q);
      if q.state.Blocked? && !q.Locked() {
        UnblockIsOrderly(s, p, q.(state := Ready));
      }
    }
  }

  lemma UnblockIsOrderly(s: State, p: int, q: Proc)
    requires IsUser(s.procs, p) && s.procs[p].state.Blocked? && q.state.Ready?
    ensures Regular(s, StateDidChange(SetProc(s, p, q)), 0)
    ensures (s.procs[p].event ==> q.event) ==> Orderly(s, StateDidChange(SetProc(s, p, q)), 0)
  {
    hide Spends, Overfull, StateDidChange, KeepsTurn, KeepsMail, Calm;
    var s1 := SetProc(s, p, q);
    ProcIsOrderly(s, p, q);
    StateDidChangeIsOrderly(s1);
    if p < |s.loops| {
      Then(s, s1, StateDidChange(s1), -1, 1);
    } else {
      Then(s, s1, StateDidChange(s1), 0, 1);
      NoLoopsNoCost(s, StateDidChange(s1), 1, 0);
    }
  }

  lemma NoLoopsNoCost(s: State, r: Outcome<State>, cost: int, any: int)
    requires |s.loops| != |s.procs| && Regular(s, r, cost)
    ensures Regular(s, r, any)
  {
  }

  lemma UnlockIfAbleIsOrderly(s: State, p: int)
    ensures Orderly(s, UnlockProcIfAble(s, p), 0)
  {
    hide UnlockProc, Regular, Calm;
    UnlockIsOrderly(s, p, IpcLock);
    ClearingIsOrderly(s, s);
  }

  /** A new message uses up one place. */
  lemma ArrivalIsOrderly(s: State, p: int, m: Message, bytes: nat)
    requires IsUser(s.procs, p) && p < |s.loops| && s.procs[p].Alive() && !IsFull(s.loops[p])
    ensures var f := Fill(Reserve(s.loops[p]), |s.loops[p]|, m, bytes);
            Regular(s, Ok(s.(loops := s.loops[p := f], mail := s.mail + [Delivered(m, p)])), -1)
  {
    hide LastSwitched, Changes, Switches, LoopRecorded, TotalSlack, WaitTasks;
    var e := Filled(m, bytes, false, bytes == 0);
    var f := s.loops[p] + [e];
    assert Fill(Reserve(s.loops[p]), |s.loops[p]|, m, bytes) == f;
    if MailOk(s) {
      DeliveryIsRecorded(s.loops[p], s.mail, p, e);
    }
    MailChange(s, p, f, Delivered(m, p));
    if |s.procs| == |s.loops| {
      LoopSlack(s, p, f);
    }
  }

  lemma CallbackIsOrderly(s: State, p: int, m: Message, bytes: nat)
    ensures Orderly(s, First(CallbackInvoke(s, p, m, bytes)), 0)
  {
    hide Calm;
    CallbackIsRegular(s, p, m, bytes);
    CallbackIsCalm(s, p, m, bytes);
  }

  /** The one process whose event lock goes has just got something. */
  lemma CallbackIsCalm(s: State, p: int, m: Message, bytes: nat)
    ensures match CallbackInvoke(s, p, m, bytes)
            case Ok((s', e)) => Calm(s, s') && (e == PeNone ==> s'.mail == s.mail + [Delivered(m, p)])
            case Halt(_) => true
  {
    var r := CallbackInvoke(s, p, m, bytes);
    if r.Ok? && r.value.1 == PeNone {
      assert r.value.0.mail[|s.mail|] == Delivered(m, p);
    }
  }

  lemma CallbackIsRegular(s: State, p: int, m: Message, bytes: nat)
    ensures Regular(s, First(CallbackInvoke(s, p, m, bytes)), 0)
  {
    hide UnlockProc, StateDidChange, KeepsTurn, KeepsMail, Spends, Overfull, Calm;
    ClearingIsOrderly(s, s);
    if IsUser(s.procs, p) && p < |s.loops| && s.procs[p].Alive() && !IsFull(s.loops[p]) && bytes <= DISPATCH_MAX_DATA_SIZE_BYTES {
      var f := Fill(Reserve(s.loops[p]), |s.loops[p]|, m, bytes);
      var s0 := s.(loops := s.loops[p := f], mail := s.mail + [Delivered(m, p)]);
      ArrivalIsOrderly(s, p, m, bytes);
      UnlockIsOrderly(s0, p, EventLock);
      var r := UnlockProc(s0, p, EventLock);
      Then(s, s0, r, -1, 0);
      Cheaper(s, r, -1, 0);
      if r.Ok? {
        StateDidChangeIsOrderly(r.value);
        Then(s, r.value, StateDidChange(r.value), -1, 1);
      }
    }
  }

  lemma FailReplyIsOrderly(s: State, token: nat)
    requires token < |s.replies|
    ensures Orderly(s, ReleaseToken(s, token), 0)
    ensures Orderly(s, FailReply(s, token), 0)
  {
    hide UnlockProcIfAble, KeepsTurn, KeepsMail, Spends, Overfull, Calm;
    var s0 := s.(replies := s.replies[token := NO_REPLY]);
    ClearingIsOrderly(s, s0);
    UnlockIfAbleIsOrderly(s0, s.replies[token].sender);
    Then(s, s0, UnlockProcIfAble(s0, s.replies[token].sender), 0, 0);
  }

  lemma TakeTokenIsRegular(s: State, p: int, handler: int, bytes: nat)
    ensures Regular(s, First(TakeToken(s, p, handler, bytes)), 2)
  {
    hide LockProc, KeepsTurn, KeepsMail, Spends, Overfull, Calm;
    var token := FreeReply(s.replies, 0);
    if token < |s.replies| {
      var s0 := s.(replies := s.replies[token := Reply(p, handler, bytes)]);
      ElsewhereIsRegular(s, s0);
      LockIsOrderly(s0, p, IpcLock);
      Then(s, s0, LockProc(s0, p, IpcLock), 0, 2);
    }
  }

  // ---------------------------------------------------------------- delivery and bindings

  lemma DeliverIsOrderly(s: State, l: Listener, source: int, bytes: nat, replyBytes: nat, token: nat)
    ensures Orderly(s, First(Deliver(s, l, source, bytes, replyBytes, token)), if replyBytes == 0 then 0 else 1)
  {
    hide CallbackInvoke, Dispatch, KeepsTurn, KeepsMail, Spends, Overfull, Calm;
    var m := Message(source, token);
    CallbackIsOrderly(s, l.procId, m, QUERY_HEADER_BYTES + bytes);
    var r := CallbackInvoke(s, l.procId, m, QUERY_HEADER_BYTES + bytes);
    Cheaper(s, First(r), 0, 1);
    if r.Ok? && r.value.1 != PeNone && replyBytes != 0 && token < |r.value.0.replies| {
      var s1 := r.value.0;
      var s2 := s1.(replies := s1.replies[token := NO_REPLY]);
      ClearingIsOrderly(s1, s2);
      Then(s, s1, Ok(s2), 0, 0);
      DispatchIsOrderly(s2, UnlockIfAble(source));
      Then(s, s2, Dispatch(s2, UnlockIfAble(source)), 0, 1);
    }
  }

  lemma NotifyIsOrderly(s: State, target: int)
    ensures Orderly(s, NotifySessionDestroyed(s, target), 0)
  {
    hide Deliver, KeepsTurn, KeepsMail, Spends, Overfull, Calm;
    ClearingIsOrderly(s, s);
    var l := FindListener(s.listeners, IpcPath.SESSION_DESTROYED, false, target, 0);
    if l < |s.listeners| {
      DeliverIsOrderly(s, s.listeners[l], KERNEL_PROC_ID, PROC_ID_BYTES, 0, |s.replies|);
    }
  }

  lemma DestroyIsOrderly(s: State, i: nat, requester: int)
    requires i < |s.bindings|
    ensures Orderly(s, DestroyBindingAt(s, i, requester), 0)
  {
    hide NotifySessionDestroyed, KeepsTurn, KeepsMail, Spends, Overfull, Calm;
    var target := if s.bindings[i].receiver == requester then s.bindings[i].sender else s.bindings[i].receiver;
    NotifyIsOrderly(s, target);
    var r := NotifySessionDestroyed(s, target);
    if r.Ok? && i < |r.value.bindings| {
      var s' := r.value.(bindings := r.value.bindings[i := NO_BINDING]);
      ClearingIsOrderly(r.value, s');
      Then(s, r.value, Ok(s'), 0, 0);
    }
  }

  lemma WriteIsOrderly(s: State, i: nat, sender: int, receiver: int, permissions: bv32)
    requires i < |s.bindings|
    ensures Orderly(s, Ok(WriteBinding(s, i, sender, receiver, permissions)), 0)
  {
    hide KeepsTurn, KeepsMail, Spends, Overfull, Calm;
    var s1 := s.(bindings := s.bindings[i := Binding(sender, receiver, permissions)]);
    ClearingIsOrderly(s, s1);
    NotingIsOrderly(s1, Granted(receiver, sender, permissions));
    Then(s, s1, Ok(WriteBinding(s, i, sender, receiver, permissions)), 0, 0);
  }

  lemma BindIsOrderly(s: State, peer: int, p: int, b: BindData)
    ensures Orderly(s, First(ApplyBind(s, peer, p, b)), 0)
  {
    hide DestroyBindingAt, WriteBinding, KeepsTurn, KeepsMail, Spends, Overfull, Calm;
    ClearingIsOrderly(s, s);
    var free := FindBinding(s.bindings, NONE_PROC_ID, NONE_PROC_ID, 0);
    if free < |s.bindings| {
      WriteIsOrderly(s, free, peer, p, b.permissions);
    }
    var i := FindBinding(s.bindings, peer, p, 0);
    if i < |s.bindings| {
      WriteIsOrderly(s, i, peer, p, b.permissions);
      DestroyIsOrderly(s, i, p);
    }
  }

  // ---------------------------------------------------------------- system calls

  lemma SendToIsOrderly(s: State, p: int, l: Listener, q: Query)
    ensures Orderly(s, First(SendTo(s, p, l, q)), 3)
  {
    hide TakeToken, Deliver, ApplyBind, Regular, Calm;
    ClearingIsOrderly(s, s);
    Cheaper(s, Ok(s), 0, 2);
    TakeTokenIsRegular(s, p, l.procId, q.replyBytes);
    var taken := if q.replyBytes == 0 then Ok((s, |s.replies|)) else TakeToken(s, p, l.procId, q.replyBytes);
    Cheaper(s, First(taken), 2, 3);
    if taken.Ok? {
      var (s1, token) := taken.value;
      DeliverIsOrderly(s1, l, p, q.bytes, q.replyBytes, token);
      var sent := Deliver(s1, l, p, q.bytes, q.replyBytes, token);
      Cheaper(s1, First(sent), if q.replyBytes == 0 then 0 else 1, 1);
      Then(s, s1, First(sent), 2, 1);
      TokenGoesOut(s, p, l, q);
      if sent.Ok? && sent.value.1 == NoError {
        var s2 := sent.value.0;
        BoundSendIsOrderly(s2, p, l, q.bind);
        var s3 := if l.bindingRequired then s2.(log := s2.log + [BoundMessage(p, l.procId, l.mask)]) else s2;
        Then(s, s2, First(ApplyBind(s3, l.procId, p, q.bind)), 3, 0);
      }
    }
  }

  /** A token is taken only for a message that goes out, or is given back. */
  lemma TokenGoesOut(s: State, p: int, l: Listener, q: Query)
    ensures var taken := if q.replyBytes == 0 then Ok((s, |s.replies|)) else TakeToken(s, p, l.procId, q.replyBytes);
            taken.Ok? ==>
              var sent := Deliver(taken.value.0, l, p, q.bytes, q.replyBytes, taken.value.1);
              sent.Ok? ==> Calm(s, sent.value.0)
  {
    hide TakeToken, Deliver, Calm;
    DeliverIsOrderly(s, l, p, q.bytes, q.replyBytes, |s.replies|);
    if q.replyBytes != 0 {
      TakingIsCalmButForToken(s, p, l.procId, q.replyBytes);
      var taken := TakeToken(s, p, l.procId, q.replyBytes);
      if taken.Ok? {
        var (s1, token) := taken.value;
        DeliverIsOrderly(s1, l, p, q.bytes, q.replyBytes, token);
        DeliverSettlesToken(s1, l, p, q.bytes, q.replyBytes, token);
        var sent := Deliver(s1, l, p, q.bytes, q.replyBytes, token);
        if sent.Ok? {
          SettledIsCalm(s, s1, token, Reply(p, l.procId, q.replyBytes), sent.value.0);
        }
      }
    }
  }

  lemma TakingIsCalmButForToken(s: State, p: int, handler: int, bytes: nat)
    ensures match TakeToken(s, p, handler, bytes)
            case Ok((s1, token)) =>
              && token < |s.replies| && s1.replies == s.replies[token := Reply(p, handler, bytes)]
              && s1.mail == s.mail && Calm(s, s1.(replies := s.replies))
            case Halt(_) => true
  {
  }

  lemma DeliverSettlesToken(s: State, l: Listener, source: int, bytes: nat, replyBytes: nat, token: nat)
    requires token < |s.replies| && replyBytes != 0
    ensures match Deliver(s, l, source, bytes, replyBytes, token)
            case Ok((s', _)) =>
              || s'.replies == s.replies[token := NO_REPLY]
              || (s'.replies == s.replies && DeliveredSince(s'.mail, |s.mail|, Message(source, token), l.procId))
            case Halt(_) => true
  {
    hide CallbackInvoke, Calm;
    CallbackIsCalm(s, l.procId, Message(source, token), QUERY_HEADER_BYTES + bytes);
    CallbackKeepsTokens(s, l.procId, Message(source, token), QUERY_HEADER_BYTES + bytes);
    LastIsDelivered(s.mail, Message(source, token), l.procId);
  }

  lemma LastIsDelivered(mail: seq<Mail>, m: Message, q: int)
    ensures DeliveredSince(mail + [Delivered(m, q)], |mail|, m, q)
  {
    assert (mail + [Delivered(m, q)])[|mail|] == Delivered(m, q);
  }

  lemma CallbackKeepsTokens(s: State, p: int, m: Message, bytes: nat)
    ensures CallbackInvoke(s, p, m, bytes).Ok? ==> CallbackInvoke(s, p, m, bytes).value.0.replies == s.replies
  {
  }

  lemma SettledIsCalm(s: State, s1: State, token: nat, r: Reply, s2: State)
    requires token < |s.replies| && s1.replies == s.replies[token := r] && s1.mail == s.mail
    requires Calm(s, s1.(replies := s.replies)) && Calm(s1, s2)
    requires s2.replies == s1.replies[token := NO_REPLY] ||
             (s2.replies == s1.replies && DeliveredSince(s2.mail, |s1.mail|, Message(r.sender, token), r.handler))
    ensures Calm(s, s2)
  {
    hide KeepsWaiting, DeliveredSince;
    WaitingIgnoresTokens(s, s1, s.replies);
    WaitingOn(s, s1, s2);
  }

  lemma WaitingIgnoresTokens(s: State, s1: State, replies: seq<Reply>)
    requires KeepsWaiting(s, s1.(replies := replies))
    ensures KeepsWaiting(s, s1)
  {
  }

  lemma BoundSendIsOrderly(s: State, p: int, l: Listener, b: BindData)
    ensures var s1 := if l.bindingRequired then s.(log := s.log + [BoundMessage(p, l.procId, l.mask)]) else s;
            Orderly(s, First(ApplyBind(s1, l.procId, p, b)), 0)
  {
    hide ApplyBind, Regular, Calm;
    var m := BoundMessage(p, l.procId, l.mask);
    var s1 := if l.bindingRequired then s.(log := s.log + [m]) else s;
    ClearingIsOrderly(s, s);
    NotingIsOrderly(s, m);
    BindIsOrderly(s1, l.procId, p, b);
    Then(s, s1, First(ApplyBind(s1, l.procId, p, b)), 0, 0);
  }

  lemma SendIsOrderly(s: State, p: int, q: Query)
    ensures Orderly(s, First(Send(s, p, q)), 3)
  {
    hide SendTo, Regular, Calm;
    ClearingIsOrderly(s, s);
    Cheaper(s, Ok(s), 0, 3);
    var i := FindListener(s.listeners, q.path, IpcPath.GlobalPath(q.path), q.target, 0);
    if i < |s.listeners| {
      SendToIsOrderly(s, p, s.listeners[i], q);
    }
  }

  lemma ReplyIsOrderly(s: State, p: int, r: ReplyInfo)
    ensures Orderly(s, First(SendReply(s, p, r)), 0)
  {
    hide ApplyBind, ReleaseToken, KeepsTurn, KeepsMail, Spends, Overfull, Calm;
    ClearingIsOrderly(s, s);
    if r.token < |s.replies| {
      BindIsOrderly(s, s.replies[r.token].sender, p, r.bind);
      var bound := ApplyBind(s, s.replies[r.token].sender, p, r.bind);
      if bound.Ok? && r.token < |bound.value.0.replies| {
        FailReplyIsOrderly(bound.value.0, r.token);
        Then(s, bound.value.0, ReleaseToken(bound.value.0, r.token), 0, 0);
      }
    }
  }

  /** Collecting frees at most one place. */
  lemma FetchIsOrderly(s: State, p: int)
    requires 0 <= p < |s.loops|
    ensures Orderly(s, Ok(WithLoop(s, p, FetchItem(s.loops[p]).1)), 1)
    ensures Orderly(s, Ok(WithLoop(s, p, FetchData(s.loops[p]).1)), 1)
  {
    hide Regular, Calm, WithLoop;
    ReadIsOrderly(s, p, FetchItem(s.loops[p]).1);
    ReadIsOrderly(s, p, FetchData(s.loops[p]).1);
  }

  lemma ReadIsOrderly(s: State, p: int, f: Fifo<Message>)
    requires 0 <= p < |s.loops|
    requires Messages(f) == Messages(s.loops[p]) || (s.loops[p] != [] && |f| == |s.loops[p]| - 1 && Messages(f) == Messages(s.loops[p])[1..])
    ensures Orderly(s, Ok(WithLoop(s, p, f)), 1)
  {
    hide LastSwitched, Changes, Switches, TotalSlack, WaitTasks, LoopRecorded;
    if |s.procs| == |s.loops| {
      LoopSlack(s, p, f);
    }
    if |f| < |s.loops[p]| {
      if MailOk(s) {
        CollectionIsRecorded(s.loops[p], s.mail, p);
        assert Messages(s.loops[p][1..]) == Messages(f);
        MarkingIsRecorded(s.loops[p][1..], f, s.mail + [Collected(p)], p);
      }
      MailChange(s, p, f, Collected(p));
    } else if MailOk(s) {
      MarkingIsRecorded(s.loops[p], f, s.mail, p);
    }
  }

  /** The calls that queue nothing and touch no run loop. */
  predicate IsTableCall(call: Syscall) {
    call.CallRegister? || call.CallAcquire? || call.CallRelease? || call.CallListen? || call.CallMemPlz? || call.CallMemThx?
  }

  lemma TableCallIsRegular(s: State, p: int, call: Syscall)
    requires 0 <= p < |s.loops| && p < |s.mapped|
    requires IsTableCall(call)
    ensures Regular(s, Perform(s, p, call), 3)
  {
    hide KeepsTurn, KeepsMail, Spends, Overfull, Calm;
    var r := Perform(s, p, call);
    if r.Ok? {
      ElsewhereIsRegular(s, r.value);
      Cheaper(s, r, 0, 3);
    }
  }

  lemma PerformIsOrderly(s: State, p: int, call: Syscall)
    requires 0 <= p < |s.loops| && p < |s.mapped|
    requires !call.CallBye? && !call.CallFug?
    ensures Regular(s, Perform(s, p, call), 3)
    ensures !IsTableCall(call) ==> Orderly(s, Perform(s, p, call), 3)
  {
    hide Send, SendReply, Dispatch, StateDidChange, WithLoop, FetchItem, FetchData, KeepsTurn, KeepsMail, Spends, Overfull, Calm;
    ClearingIsOrderly(s, s);
    Cheaper(s, Ok(s), 0, 3);
    match call
    case CallStart =>
      DispatchIsOrderly(s, Start(p));
      Cheaper(s, Dispatch(s, Start(p)), 1, 3);
    case CallWaitForEvent =>
      DispatchIsOrderly(s, WaitForEvent(p));
    case CallYield =>
      StateDidChangeIsOrderly(s);
      Cheaper(s, StateDidChange(s), 1, 3);
    case CallSend(q) =>
      SendIsOrderly(s, p, q);
    case CallReply(r) =>
      ReplyIsOrderly(s, p, r);
      Cheaper(s, First(SendReply(s, p, r)), 0, 3);
    case CallGetItem =>
      FetchIsOrderly(s, p);
      Cheaper(s, Perform(s, p, call), 1, 3);
    case CallGetData =>
      FetchIsOrderly(s, p);
      Cheaper(s, Perform(s, p, call), 1, 3);
    case CallRegister(_) => TableCallIsRegular(s, p, call);
    case CallAcquire(_) => TableCallIsRegular(s, p, call);
    case CallRelease(_) => TableCallIsRegular(s, p, call);
    case CallListen(_, _, _) => TableCallIsRegular(s, p, call);
    case CallMemPlz(_) => TableCallIsRegular(s, p, call);
    case CallMemThx(_) => TableCallIsRegular(s, p, call);
  }

  /** Ending makes room for the four cleanup tasks and an evaluation, and gives up the run loop. */
  lemma ByeIsOrderly(s: State, p: int)
    ensures Bye(s, p).Ok? ==>
      var s' := Bye(s, p).value;
      && KeepsTurn(s, s') && KeepsMail(s, s') && |s'.procs| == |s.procs| && s'.loops == s.loops
      && s'.todo == s.todo + [DevCleanup(p), IpcCleanup(p), RunLoopCleanup(p), ProcCleanup(p), Evaluate]
      && s'.elapsed == GRANULARITY_MS
    ensures Bye(s, p) == Halt(QueueFull) ==> QueueLength(s) + 5 > MAX_QUEUE_LENGTH
  {
    hide LastSwitched, Changes, Switches, LoopRecorded;
  }

  lemma EndingIsBye(s: State, p: int, call: Syscall)
    requires 0 <= p < |s.loops| && p < |s.mapped|
    requires call.CallBye? || call.CallFug?
    ensures Perform(s, p, call) == Bye(s, p)
  {
  }

  // ---------------------------------------------------------------- cleaning

  lemma {:induction false} CleanTokensIsOrderly(s: State, p: int, i: nat)
    requires i <= |s.replies|
    ensures Orderly(s, CleanTokens(s, p, i), 0)
    decreases |s.replies| - i
  {
    hide FailReply, Regular, Calm;
    ClearingIsOrderly(s, s);
    if i < |s.replies| {
      FailReplyIsOrderly(s, i);
      ClearingIsOrderly(s, s.(replies := s.replies[i := NO_REPLY]));
      var r := if s.replies[i].handler == p then FailReply(s, i)
               else Ok(if s.replies[i].sender == p then s.(replies := s.replies[i := NO_REPLY]) else s);
      if r.Ok? && |r.value.replies| == |s.replies| {
        CleanTokensIsOrderly(r.value, p, i + 1);
        Then(s, r.value, CleanTokens(r.value, p, i + 1), 0, 0);
      }
    }
  }

  lemma {:induction false} CleanBindingsIsOrderly(s: State, p: int, i: nat)
    requires i <= |s.bindings|
    ensures Orderly(s, CleanBindings(s, p, i), 0)
    decreases |s.bindings| - i
  {
    hide DestroyBindingAt, Regular, Calm;
    ClearingIsOrderly(s, s);
    if i < |s.bindings| {
      DestroyIsOrderly(s, i, p);
      ClearingIsOrderly(s, s.(bindings := s.bindings[i := NO_BINDING]));
      var r := if s.bindings[i].sender == p then DestroyBindingAt(s, i, p)
               else Ok(if s.bindings[i].receiver == p then s.(bindings := s.bindings[i := NO_BINDING]) else s);
      if r.Ok? && |r.value.bindings| == |s.bindings| {
        CleanBindingsIsOrderly(r.value, p, i + 1);
        Then(s, r.value, CleanBindings(r.value, p, i + 1), 0, 0);
      }
    }
  }

  lemma CleanIpcIsOrderly(s: State, p: int)
    ensures Regular(s, CleanIpc(s, p), 0)
    ensures Orderly(s.(listeners := WithoutListenersOf(s.listeners, p)), CleanIpc(s, p), 0)
  {
    hide CleanTokens, CleanBindings, Regular, Calm;
    var s0 := s.(listeners := WithoutListenersOf(s.listeners, p));
    ElsewhereIsRegular(s, s0);
    CleanTokensIsOrderly(s0, p, 0);
    var r := CleanTokens(s0, p, 0);
    Then(s, s0, r, 0, 0);
    if r.Ok? {
      CleanBindingsIsOrderly(r.value, p, 0);
      Then(s, r.value, CleanBindings(r.value, p, 0), 0, 0);
      Then(s0, r.value, CleanBindings(r.value, p, 0), 0, 0);
    }
  }

  /** Its process is not alive: nothing is delivered to it any more. */
  lemma CleanRunLoopIsRegular(s: State, p: int)
    requires IsUser(s.procs, p) && !s.procs[p].Alive()
    ensures Regular(s, CleanRunLoop(s, p), 0)
  {
    hide LastSwitched, Changes, Switches, TotalSlack, WaitTasks, LoopRecorded;
    if p < |s.loops| {
      EmptyingIsRecorded(s.mail, Gone(p), p);
      MailChange(s, p, [], Gone(p));
      if |s.procs| == |s.loops| {
        LoopSlack(s, p, []);
      }
    }
  }

  lemma CleanupProcIsRegular(s: State, p: int)
    ensures Regular(s, CleanupProc(s, p), 0)
  {
    hide LastSwitched, Changes, Switches, TotalSlack, WaitTasks, LoopRecorded;
    if IsUser(s.procs, p) && |s.procs| == |s.loops| {
      ProcSlack(s, p, EMPTY_PROC);
    }
  }

  lemma EmitIsOrderly(s: State, d: nat, bytes: nat)
    ensures Orderly(s, First(Emit(s, d, bytes)), 0)
  {
    hide CallbackInvoke, Regular, Calm;
    ClearingIsOrderly(s, s);
    if d < |s.devices| {
      CallbackIsOrderly(s, s.devices[d].holder, Message(KERNEL_PROC_ID, |s.replies|), EVENT_HEADER_BYTES + bytes);
    }
    HaltsHaveAReason(s, First(Emit(s, d, bytes)));
  }

  lemma HaltsHaveAReason(s: State, r: Outcome<State>)
    ensures r.Halt? && r.reason != QueueFull ==> Orderly(s, r, 0)
  {
  }
}
