/** Runs that show what the kernel does not promise. */
module KernelExamples {
  import opened Outcomes
  import opened RunLoopSpec
  import opened IpcPath
  import opened KernelState
  import opened KernelInvariant
  import opened KernelTasks
  import opened KernelRuns
  import opened KernelEffects
  import opened KernelTheorems
  import opened KernelFairness
  import opened KernelMail
  import opened KernelNotices
  import opened KernelPieces
  import opened KernelDuties
  import opened KernelSteps

  // ---------------------------------------------------------------- turns without an evaluation

  /** A process asks for a program that cannot be loaded, and goes on. */
  const ROUND: seq<Action> := [Call(CallStart)] + LEAVING + SERVING + [Idle]

  lemma RoundGoesRound(s: State)
    requires UserRuns(s)
    ensures var s' := s.(last := s.current, elapsed := 0, log := s.log + [Switched(s.current)]);
            Leads(s, ROUND, s') && UserRuns(s')
  {
    hide Leads;
    var q := s.current;
    var s1 := s.(isr := 1, todo := [Start(q)]);
    assert s.todo + [Start(q)] == [Start(q)];
    LeadsOne(s, Call(CallStart), s1);
    Leaving(s1);
    var s2 := Left(s1);
    LeadsOn(s, [Call(CallStart)], s1, LEAVING, s2);
    Serves(s2, s2);
    var s3 := s2.(todo := [], head := None);
    assert s2.todo[1..] == [];
    LeadsOn(s, [Call(CallStart)] + LEAVING, s2, SERVING, s3);
    HandsOver(s3, q);
    LeadsOn(s, [Call(CallStart)] + LEAVING + SERVING, s3, [Idle], HandedTo(s3, q));
    assert HandedTo(s3, q).procs == s.procs;
  }

  /** k such rounds. */
  function Rounds(k: nat): seq<Action> {
    if k == 0 then [] else ROUND + Rounds(k - 1)
  }

  lemma {:induction false} RoundsGoRound(s: State, p: int, k: nat) returns (s': State)
    requires UserRuns(s) && Waits(s, p)
    ensures Execute(s, Rounds(k)) == Ok(s') && WaitsThroughout(s, Rounds(k), p) && UserRuns(s') && s'.current == s.current
    ensures Switches(s'.log) == Switches(s.log) + seq(k, _ => s.current)
    decreases k
  {
    hide Execute, WaitsThroughout;
    if k == 0 {
      s' := s;
      Standing(s, p);
    } else {
      RoundGoesRound(s);
      var s1 := s.(last := s.current, elapsed := 0, log := s.log + [Switched(s.current)]);
      Logged(s.log, Switched(s.current));
      s' := RoundsGoRound(s1, p, k - 1);
      GoOn(s, ROUND, s1, Rounds(k - 1));
      WaitOn(s, ROUND, s1, Rounds(k - 1), p);
      assert [s.current] + seq(k - 1, _ => s.current) == seq(k, _ => s.current);
    }
  }

  lemma Standing(s: State, p: int)
    requires Waits(s, p)
    ensures Execute(s, []) == Ok(s) && WaitsThroughout(s, [], p)
  {
  }

  /**
    * Whenever one process runs and another is ready, the one that runs can have the processor any number of times in a row
    * while the other stays ready: the kernel hands it back without an evaluation.
    */
  lemma ReadyProcessCanBePassedOver(b: Sizes, before: seq<Action>, s: State, p: int, k: nat) returns (run: seq<Action>, s': State)
    requires Reaches(b, before, s) && s.current != KERNEL_PROC_ID && s.isr == 0 && Waits(s, p)
    ensures WaitsThroughout(s, run, p) && Execute(s, run) == Ok(s')
    ensures Switches(s'.log) == Switches(s.log) + seq(k, _ => s.current)
  {
    hide Inv, UserRuns, Execute, Waits, WaitsThroughout, Reaches;
    ReachedIsSafe(b, before, s);
    UserRunsAtLeisure(s);
    run := Rounds(k);
    s' := RoundsGoRound(s, p, k);
  }

  // ---------------------------------------------------------------- two processes

  const PROGRAM: Image := Loaded({}, 1, 1)

  function TwoProcesses(listeners: nat): Sizes {
    Sizes(2, listeners, 2, 0, [])
  }

  const STARTING: seq<Action> := [Startup(PROGRAM)] + [Startup(PROGRAM)] + [StartQueue]

  /** Two programs were started, and the first of them runs. */
  function BothStarted(listeners: nat): State {
    State([ACTIVE, WAITING], Ready, 0, KERNEL_PROC_ID, 0, 0, true, true, None, [], 0,
          [[], []], [{}, {}], seq(listeners, i => NO_LISTENER), [NO_REPLY, NO_REPLY], [], [],
          [Spawned(0)] + [Spawned(1)] + [Switched(0)], [Born(0)] + [Born(1)])
  }

  lemma ProgramStarts(s: State, p: int, s1: State)
    requires FreeSlot(s.procs, 0) == p < |s.procs| && s.procs[p] == EMPTY_PROC && p < |s.mapped| && s.mapped[p] == {}
    requires s1 == s.(procs := s.procs[p := WAITING], log := s.log + [Spawned(p)], mail := s.mail + [Born(p)],
                      next := if s.next < 0 then ProcSelect(s.procs[p := WAITING], s.last) else s.next)
    ensures StartImage(s, PROGRAM) == Ok(s1)
  {
    hide ProcSelect, FreeSlot;
    assert s.procs[p := s.procs[p].(state := New)][p := WAITING] == s.procs[p := WAITING];
    assert s.mapped[p := {}] == s.mapped;
  }

  /** Before the queue runs: no program, one, two. */
  function Started(listeners: nat, n: nat): State
    requires n <= 2
  {
    BothStarted(listeners).(
      procs := [if n > 0 then WAITING else EMPTY_PROC, if n > 1 then WAITING else EMPTY_PROC],
      kernel := Running, current := KERNEL_PROC_ID, next := if n > 0 then 0 else KERNEL_PROC_ID,
      elapsed := GRANULARITY_MS, resuming := false, queueRunning := false,
      log := if n == 0 then [] else if n == 1 then [Spawned(0)] else [Spawned(0)] + [Spawned(1)],
      mail := if n == 0 then [] else if n == 1 then [Born(0)] else [Born(0)] + [Born(1)])
  }

  lemma BootedIsBoot(listeners: nat)
    ensures Started(listeners, 0) == Boot(2, listeners, 2, 0, [])
  {
  }

  lemma FirstStarts(listeners: nat)
    ensures StartImage(Started(listeners, 0), PROGRAM) == Ok(Started(listeners, 1))
  {
    hide StartImage;
    var s, s1 := Started(listeners, 0), Started(listeners, 1);
    assert s1.procs == s.procs[0 := WAITING];
    assert FreeSlot(s.procs, 0) == 0 && ProcSelect(s1.procs, -1) == 0;
    assert s1.log == s.log + [Spawned(0)] && s1.mail == s.mail + [Born(0)];
    ProgramStarts(s, 0, s1);
  }

  lemma SecondStarts(listeners: nat)
    ensures StartImage(Started(listeners, 1), PROGRAM) == Ok(Started(listeners, 2))
  {
    hide StartImage, ProcSelect;
    var s, s2 := Started(listeners, 1), Started(listeners, 2);
    assert s2.procs == s.procs[1 := WAITING];
    assert FreeSlot(s.procs, 0) == 1;
    ProgramStarts(s, 1, s2);
  }

  lemma BothStart(listeners: nat)
    ensures Reaches(TwoProcesses(listeners), STARTING + [Idle], BothStarted(listeners))
  {
    hide Leads, StartImage, Boot;
    var s0, s1, s2 := Started(listeners, 0), Started(listeners, 1), Started(listeners, 2);
    var s3 := s2.(queueRunning := true);
    var end := BothStarted(listeners);
    BootedIsBoot(listeners);
    FirstStarts(listeners);
    SecondStarts(listeners);
    LeadsOne(s0, Startup(PROGRAM), s1);
    LeadsOne(s1, Startup(PROGRAM), s2);
    LeadsOn(s0, [Startup(PROGRAM)], s1, [Startup(PROGRAM)], s2);
    LeadsOne(s2, StartQueue, s3);
    LeadsOn(s0, [Startup(PROGRAM)] + [Startup(PROGRAM)], s2, [StartQueue], s3);
    HandsOver(s3, 0);
    assert HandedTo(s3, 0) == end;
    LeadsOn(s0, STARTING, s3, [Idle], end);
    LeadsExecutes(s0, STARTING + [Idle], end);
  }

  /** So the number of turns a ready process is passed over for has no bound. */
  lemma BypassHasNoBound(k: nat) returns (b: Sizes, before: seq<Action>, s: State, run: seq<Action>, s': State)
    ensures Reaches(b, before, s) && WaitsThroughout(s, run, 1) && Execute(s, run) == Ok(s')
    ensures Switches(s'.log) == Switches(s.log) + seq(k, _ => 0)
  {
    hide Reaches, Execute, WaitsThroughout;
    b, before, s := TwoProcesses(0), STARTING + [Idle], BothStarted(0);
    BothStart(0);
    run, s' := ReadyProcessCanBePassedOver(b, before, s, 1, k);
  }

  // ---------------------------------------------------------------- a process that waits

  /** The first process asks for an event before there is one, and is blocked. */
  lemma ProcessCanWait() returns (b: Sizes, run: seq<Action>, s: State)
    ensures Reaches(b, run, s) && s.procs == [Proc(Blocked, true, false), WAITING]
  {
    hide Execute, Boot;
    b := TwoProcesses(0);
    run := STARTING + [Idle] + CallThenTask(CallWaitForEvent, NotLoaded);
    BothStart(0);
    s := CallerWaitsIffIdle(b, STARTING + [Idle], BothStarted(0));
    GoOn(Boot(b.procs, b.listeners, b.tokens, b.bindings, b.started), STARTING + [Idle], BothStarted(0),
         CallThenTask(CallWaitForEvent, NotLoaded));
  }

  // ---------------------------------------------------------------- a message from a slot's former owner

  const OPEN := Listener(0, "a", false, 0)
  const HELLO := Filled(Message(1, 2), QUERY_HEADER_BYTES, false, false)
  const GREETING := Query("a", 0, 0, 0, BindData(NoBind, 0))

  /** The first process listens on a path, and the second runs. */
  function SecondRuns(): State {
    BothStarted(1).(procs := [WAITING, ACTIVE], current := 1, last := 0, next := 1, listeners := [OPEN],
                    log := BothStarted(1).log + [Switched(1)])
  }

  /** The second sent a message to the first, which runs again. */
  function FirstHasMail(): State {
    SecondRuns().(procs := [ACTIVE, WAITING], current := 0, last := 1, next := 0, loops := [[HELLO], []],
                  log := SecondRuns().log + [Switched(0)], mail := SecondRuns().mail + [Delivered(Message(1, 2), 0)])
  }

  /** The first did not collect it, and the second runs again. */
  function SecondRunsAgain(): State {
    FirstHasMail().(procs := [WAITING, ACTIVE], current := 1, last := 0, next := 1, log := FirstHasMail().log + [Switched(1)])
  }

  /** The second is gone. */
  function SecondGone(): State {
    SecondRunsAgain().(procs := [WAITING, EMPTY_PROC], kernel := Running, current := KERNEL_PROC_ID, last := 1, resuming := false,
                       elapsed := GRANULARITY_MS, todo := [Evaluate], mail := SecondRunsAgain().mail + [Gone(1)])
  }

  lemma OneSelects(q: int)
    requires q == 0 || q == 1
    ensures ProcSelect([WAITING, WAITING], 1 - q) == q
  {
  }

  lemma PathIsGlobal()
    ensures GlobalPath("a") && !DirectPath("a") && !NotificationPath("a") && "a" != [] && |"a"| <= MAX_LENGTH
    ensures Matches("a", "a") && !Matches("a", "")
  {
  }

  const LISTENING: seq<Action> := [Call(CallRegister(Registration("a", true, true, false, 0)))] + [IsrEnd]

  lemma FirstListens()
    ensures Execute(BothStarted(1), LISTENING) == Ok(BothStarted(1).(listeners := [OPEN]))
  {
    hide Leads, Execute, WaitsThroughout;
    var s := BothStarted(1);
    var a := Call(CallRegister(Registration("a", true, true, false, 0)));
    var s1 := s.(isr := 1, listeners := [OPEN]);
    PathIsGlobal();
    assert s.listeners == [NO_LISTENER] && s.listeners[0 := OPEN] == [OPEN];
    assert FreeListener(s.listeners, 0) == 0 && NextListener(s.listeners, "a", 0) == 1;
    One(s, a, s1);
    One(s1, IsrEnd, s.(listeners := [OPEN]));
    GoOn(s, [a], s1, [IsrEnd]);
  }

  /** The process that runs yields to the other one. */
  lemma Yields(s: State, q: int, s1: State)
    requires UserRuns(s) && (q == 0 || q == 1) && s.current == 1 - q
    requires s.procs == if q == 0 then [WAITING, ACTIVE] else [ACTIVE, WAITING]
    requires s1 == s.(procs := if q == 0 then [ACTIVE, WAITING] else [WAITING, ACTIVE], current := q, last := 1 - q, next := q,
                      elapsed := 0, log := s.log + [Switched(q)])
    ensures Execute(s, YIELDING) == Ok(s1)
  {
    hide Leads, Execute, WaitsThroughout, ProcSelect;
    var s2 := s.(isr := 1, elapsed := GRANULARITY_MS, todo := [Evaluate]);
    assert s.todo + [Evaluate] == [Evaluate];
    One(s, Call(CallYield), s2);
    assert Left(s2).procs == [WAITING, WAITING];
    OneSelects(q);
    assert HandedTo(Left(s2).(todo := [], next := q), q).procs == s1.procs;
    TurnsOver(s2, q, s1);
    GoOn(s, [Call(CallYield)], s2, LEAVING + SERVING + [Idle]);
  }

  const GREETING_RUN: seq<Action> := [Call(CallSend(GREETING))] + (LEAVING + SERVING + [Idle])

  lemma SecondSends()
    ensures Execute(SecondRuns(), GREETING_RUN) == Ok(FirstHasMail())
  {
    hide Leads, Execute, WaitsThroughout, ProcSelect, Send;
    var s := SecondRuns();
    var s2 := s.(isr := 1, elapsed := GRANULARITY_MS, todo := [Evaluate], loops := [[HELLO], []], mail := s.mail + [Delivered(Message(1, 2), 0)]);
    Greets(s.(isr := 1), s2);
    One(s, Call(CallSend(GREETING)), s2);
    assert Left(s2).procs == [WAITING, WAITING];
    OneSelects(0);
    assert HandedTo(Left(s2).(todo := [], next := 0), 0).procs == [ACTIVE, WAITING];
    TurnsOver(s2, 0, FirstHasMail());
    GoOn(s, [Call(CallSend(GREETING))], s2, LEAVING + SERVING + [Idle]);
  }

  lemma Greets(s: State, s2: State)
    requires s == SecondRuns().(isr := 1)
    requires s2 == s.(elapsed := GRANULARITY_MS, todo := [Evaluate], loops := [[HELLO], []], mail := s.mail + [Delivered(Message(1, 2), 0)])
    ensures Send(s, 1, GREETING) == Ok((s2, NoError))
  {
    hide GlobalPath, DirectPath, Matches;
    PathIsGlobal();
    assert FindListener(s.listeners, "a", true, 0, 0) == 0;
    assert Fill(Reserve(s.loops[0]), 0, Message(1, 2), QUERY_HEADER_BYTES) == [HELLO];
    assert s.loops[0 := [HELLO]] == [[HELLO], []] && s.procs[0 := WAITING] == s.procs && s.todo + [Evaluate] == [Evaluate];
  }

  const ENDING: seq<Action> := [Call(CallBye)] + LEAVING
  const CLEANING: seq<Action> := SERVING + SERVING + SERVING + SERVING

  function CleanupTasks(k: nat): seq<Task> {
    if k == 0 then [DevCleanup(1), IpcCleanup(1), RunLoopCleanup(1), ProcCleanup(1), Evaluate]
    else if k == 1 then [IpcCleanup(1), RunLoopCleanup(1), ProcCleanup(1), Evaluate]
    else if k == 2 then [RunLoopCleanup(1), ProcCleanup(1), Evaluate]
    else [ProcCleanup(1), Evaluate]
  }

  /** The kernel cleans up after the second process, from the k-th task on. */
  function Cleaning(k: nat): State
    requires k < 4
  {
    SecondGone().(procs := [WAITING, Proc(Finished, false, false)], todo := CleanupTasks(k),
                  mail := if k == 3 then SecondGone().mail else SecondRunsAgain().mail)
  }

  lemma ByeQueuesCleanup(s: State)
    requires s == SecondRunsAgain().(isr := 1)
    ensures Bye(s, 1) == Ok(s.(elapsed := GRANULARITY_MS, procs := [WAITING, Proc(Finished, false, false)], todo := Cleaning(0).todo))
  {
    assert s.procs[1 := Proc(Finished, false, false)] == [WAITING, Proc(Finished, false, false)];
    assert s.todo + [DevCleanup(1)] + [IpcCleanup(1)] + [RunLoopCleanup(1)] + [ProcCleanup(1)] + [Evaluate] == Cleaning(0).todo;
  }

  lemma SecondEnds()
    ensures Execute(SecondRunsAgain(), ENDING) == Ok(Cleaning(0))
  {
    hide Leads, Execute, WaitsThroughout, Bye;
    var s := SecondRunsAgain();
    var s1 := s.(isr := 1, elapsed := GRANULARITY_MS, procs := [WAITING, Proc(Finished, false, false)], todo := Cleaning(0).todo);
    ByeQueuesCleanup(s.(isr := 1));
    One(s, Call(CallBye), s1);
    Leaving(s1);
    LeadsExecutes(s1, LEAVING, Left(s1));
    assert Left(s1).procs == s1.procs;
    assert Left(s1) == Cleaning(0);
    GoOn(s, [Call(CallBye)], s1, LEAVING);
  }

  /** What a cleanup task makes of the state before it leaves the queue. */
  function Cleaned(k: nat): State
    requires k < 4
  {
    (if k < 3 then Cleaning(k + 1) else SecondGone()).(todo := CleanupTasks(k))
  }

  lemma DevicesCleaned()
    ensures RunTask(Cleaning(0), DevCleanup(1), NotLoaded) == Ok(Cleaned(0))
  {
    assert CleanDevices(Cleaning(0), 1).devices == [];
  }

  lemma IpcCleaned()
    ensures RunTask(Cleaning(1), IpcCleanup(1), NotLoaded) == Ok(Cleaned(1))
  {
    var s := Cleaning(1);
    assert WithoutListenersOf(s.listeners, 1) == s.listeners;
    assert CleanTokens(s, 1, 2) == Ok(s);
    assert CleanTokens(s, 1, 1) == Ok(s);
    assert CleanTokens(s, 1, 0) == Ok(s);
    assert CleanBindings(s, 1, 0) == Ok(s);
  }

  lemma RunLoopCleaned()
    ensures RunTask(Cleaning(2), RunLoopCleanup(1), NotLoaded) == Ok(Cleaned(2))
  {
    assert Cleaning(2).loops[1 := []] == Cleaning(2).loops;
  }

  lemma ProcCleaned()
    ensures RunTask(Cleaning(3), ProcCleanup(1), NotLoaded) == Ok(Cleaned(3))
  {
    assert Cleaning(3).mapped[1 := {}] == Cleaning(3).mapped;
    assert Cleaning(3).procs[1 := EMPTY_PROC] == [WAITING, EMPTY_PROC];
  }

  lemma CleanupServes(k: nat)
    requires k < 4
    ensures Execute(Cleaning(k), SERVING) == Ok(if k < 3 then Cleaning(k + 1) else SecondGone())
  {
    hide Leads, Execute, WaitsThroughout, RunTask;
    DevicesCleaned();
    IpcCleaned();
    RunLoopCleaned();
    ProcCleaned();
    Serves(Cleaning(k), Cleaned(k));
    var s1 := Cleaned(k).(todo := Cleaned(k).todo[1..], head := None);
    assert s1.todo == if k < 3 then CleanupTasks(k + 1) else [Evaluate];
    LeadsExecutes(Cleaning(k), SERVING, s1);
  }

  lemma SecondIsCleaned()
    ensures Execute(Cleaning(0), CLEANING) == Ok(SecondGone())
  {
    hide Execute, Cleaning, SecondGone;
    CleanupServes(0);
    CleanupServes(1);
    CleanupServes(2);
    CleanupServes(3);
    GoOn(Cleaning(0), SERVING, Cleaning(1), SERVING);
    GoOn(Cleaning(0), SERVING + SERVING, Cleaning(2), SERVING);
    GoOn(Cleaning(0), SERVING + SERVING + SERVING, Cleaning(3), SERVING);
  }

  const STORY: seq<Action> :=
    STARTING + [Idle] + LISTENING + YIELDING + GREETING_RUN + YIELDING + ENDING + CLEANING

  /**
    * A slot can be handed out while the run loop of another process holds a message of its former owner, which then looks
    * like one of the new process.
    */
  lemma ReusedSlotCanBeNamed() returns (b: Sizes, s: State)
    ensures Reaches(b, STORY, s) && Spawn(s).1 == Some(1) && TablesWithout(Spawn(s).0, 1)
    ensures Waiting(Spawn(s).0, 1, 0) && Spawn(s).0.loops == [[Filled(Message(1, 2), QUERY_HEADER_BYTES, false, false)], []]
  {
    hide Execute, Step, TablesWithout;
    b, s := TwoProcesses(1), SecondGone();
    StoryHappens();
    assert FreeSlot(s.procs, 0) == 1;
    assert Spawn(s).0.loops[0][0] == HELLO;
    SlotsAreReusedClean(b, STORY, s, 1);
  }

  lemma StoryHappens()
    ensures Reaches(TwoProcesses(1), STORY, SecondGone())
  {
    hide Execute, WaitsThroughout;
    var s0 := Boot(2, 1, 2, 0, []);
    var run := STARTING + [Idle];
    BothStart(1);
    FirstListens();
    GoOn(s0, run, BothStarted(1), LISTENING);
    Yields(BothStarted(1).(listeners := [OPEN]), 1, SecondRuns());
    GoOn(s0, run + LISTENING, BothStarted(1).(listeners := [OPEN]), YIELDING);
    SecondSends();
    GoOn(s0, run + LISTENING + YIELDING, SecondRuns(), GREETING_RUN);
    Yields(FirstHasMail(), 1, SecondRunsAgain());
    GoOn(s0, run + LISTENING + YIELDING + GREETING_RUN, FirstHasMail(), YIELDING);
    SecondEnds();
    GoOn(s0, run + LISTENING + YIELDING + GREETING_RUN + YIELDING, SecondRunsAgain(), ENDING);
    SecondIsCleaned();
    GoOn(s0, run + LISTENING + YIELDING + GREETING_RUN + YIELDING + ENDING, Cleaning(0), CLEANING);
  }

  // ---------------------------------------------------------------- a refused notice

  const HEARS := Listener(0, SESSION_DESTROYED, false, 0)
  const MINE := Listener(0, "a", false, 0)
  const ALONE := Sizes(1, 2, 1, 1, [])

  function Talk(flag: BindFlag): Query {
    Query("a", 0, 0, 0, BindData(flag, 0))
  }

  /** One process runs that listens on a path of its own and for destroyed bindings; n messages to itself wait. */
  predicate TalksToItself(s: State, n: nat) {
    && UserRuns(s) && s.current == 0 && s.procs == [ACTIVE] && |s.mapped| == 1
    && s.listeners == [HEARS, MINE] && s.replies == [NO_REPLY]
    && |s.loops| == 1 && |s.loops[0]| == n
    && s.bindings == [if n == 0 then NO_BINDING else Binding(0, 0, 0)]
  }

  lemma PathsAreValid()
    ensures SESSION_DESTROYED != [] && |SESSION_DESTROYED| <= MAX_LENGTH
    ensures NotificationPath(SESSION_DESTROYED) && !GlobalPath(SESSION_DESTROYED) && !DirectPath(SESSION_DESTROYED)
    ensures !Matches("a", SESSION_DESTROYED) && Matches(SESSION_DESTROYED, SESSION_DESTROYED)
  {
    var rest := SESSION_DESTROYED[2..];
    assert rest == "ipc/sd";
    assert GlobalPath(rest);
  }

  lemma FindsItself(s: State, n: nat, flag: BindFlag)
    requires TalksToItself(s.(isr := 0), n)
    ensures Receiver(s, 0, Talk(flag)) == Some(MINE)
  {
    hide GlobalPath, DirectPath, Matches;
    PathIsGlobal();
    PathsAreValid();
    assert NextListener(s.listeners, "a", 1) == 1;
    assert NextListener(s.listeners, "a", 0) == 1;
  }

  /** The first message binds, and each of them waits behind the others. */
  lemma MessageWaits(s: State, n: nat) returns (s1: State)
    requires TalksToItself(s, n) && n < DISPATCH_QUEUE_SIZE
    ensures Step(s, Call(CallSend(Talk(if n == 0 then Bind else NoBind)))) == Ok(s1)
    ensures s1 == s.(isr := 1, elapsed := GRANULARITY_MS, todo := [Evaluate], loops := s1.loops, mail := s1.mail,
                     bindings := [Binding(0, 0, 0)], log := s1.log)
    ensures |s1.loops| == 1 && |s1.loops[0]| == n + 1
  {
    hide Send, Receiver, GlobalPath, DirectPath, NotificationPath, Matches, SendTo;
    var q := Talk(if n == 0 then Bind else NoBind);
    var s0 := s.(isr := 1);
    FindsItself(s0, n, q.bind.flag);
    SendIsSendTo(s0, 0, q);
    s1 := MessageArrives(s0, n, q);
  }

  lemma MessageArrives(s: State, n: nat, q: Query) returns (s1: State)
    requires TalksToItself(s.(isr := 0), n) && n < DISPATCH_QUEUE_SIZE && q == Talk(if n == 0 then Bind else NoBind)
    ensures SendTo(s, 0, MINE, q) == Ok((s1, NoError))
    ensures s1 == s.(elapsed := GRANULARITY_MS, todo := [Evaluate], loops := s1.loops, mail := s1.mail,
                     bindings := [Binding(0, 0, 0)], log := s1.log)
    ensures |s1.loops| == 1 && |s1.loops[0]| == n + 1
  {
    var f := Fill(Reserve(s.loops[0]), |s.loops[0]|, Message(0, 1), QUERY_HEADER_BYTES);
    assert s.procs[0 := ACTIVE] == s.procs && s.todo + [Evaluate] == [Evaluate];
    var s2 := s.(elapsed := GRANULARITY_MS, todo := [Evaluate], loops := s.loops[0 := f], mail := s.mail + [Delivered(Message(0, 1), 0)]);
    assert Deliver(s, MINE, 0, 0, 0, 1) == Ok((s2, NoError));
    if n == 0 {
      assert FindBinding(s.bindings, NONE_PROC_ID, NONE_PROC_ID, 0) == 0;
      assert s.bindings[0 := Binding(0, 0, 0)] == [Binding(0, 0, 0)];
      s1 := WriteBinding(s2, 0, 0, 0, 0);
    } else {
      s1 := s2;
    }
  }

  function Talking(flag: BindFlag): seq<Action> {
    [Call(CallSend(Talk(flag)))] + (LEAVING + SERVING + [Idle])
  }

  lemma OneMoreWaits(s: State, n: nat) returns (s2: State)
    requires TalksToItself(s, n) && n < DISPATCH_QUEUE_SIZE
    ensures Execute(s, Talking(if n == 0 then Bind else NoBind)) == Ok(s2) && TalksToItself(s2, n + 1)
  {
    hide Step, Execute, WaitsThroughout, ProcSelect, Leads;
    var a := Call(CallSend(Talk(if n == 0 then Bind else NoBind)));
    var s1 := MessageWaits(s, n);
    assert Enabled(s, a);
    One(s, a, s1);
    assert Left(s1).procs == [WAITING];
    NobodyElse();
    s2 := HandedTo(Left(s1).(todo := [], next := 0), 0);
    TurnsOver(s1, 0, s2);
    GoOn(s, [a], s1, LEAVING + SERVING + [Idle]);
  }

  lemma NobodyElse()
    ensures ProcSelect([WAITING], 0) == 0 && ProcSelect([WAITING], -1) == 0
  {
  }

  /** Messages from the n-th up to the seventh. */
  function TalkingFrom(n: nat): seq<Action>
    requires n <= 7
    decreases 7 - n
  {
    if n == 7 then [] else Talking(if n == 0 then Bind else NoBind) + TalkingFrom(n + 1)
  }

  lemma {:induction false} SevenWait(s: State, n: nat) returns (s2: State)
    requires TalksToItself(s, n) && n <= 7
    ensures Execute(s, TalkingFrom(n)) == Ok(s2) && TalksToItself(s2, 7)
    decreases 7 - n
  {
    hide Execute, TalksToItself;
    if n == 7 {
      s2 := s;
      NothingDone(s);
    } else {
      var s1 := OneMoreWaits(s, n);
      s2 := SevenWait(s1, n + 1);
      GoOn(s, Talking(if n == 0 then Bind else NoBind), s1, TalkingFrom(n + 1));
    }
  }

  const PREPARING: seq<Action> :=
    [Startup(PROGRAM)] + [StartQueue] + [Idle]
    + ([Call(CallRegister(Registration(SESSION_DESTROYED, true, true, false, 0)))] + [IsrEnd]) + LISTENING

  /** The one process runs. */
  function AloneStarted(listeners: seq<Listener>): State {
    State([ACTIVE], Ready, 0, KERNEL_PROC_ID, 0, 0, true, true, None, [], 0,
          [[]], [{}], listeners, [NO_REPLY], [NO_BINDING], [], [Spawned(0)] + [Switched(0)], [Born(0)])
  }

  lemma AloneStarts()
    ensures Execute(Boot(1, 2, 1, 1, []), [Startup(PROGRAM)] + [StartQueue] + [Idle]) == Ok(AloneStarted([NO_LISTENER, NO_LISTENER]))
  {
    hide Leads, StartImage, Execute, WaitsThroughout, ProcSelect;
    var end := AloneStarted([NO_LISTENER, NO_LISTENER]);
    var s0 := end.(procs := [EMPTY_PROC], kernel := Running, current := KERNEL_PROC_ID, next := KERNEL_PROC_ID,
                   elapsed := GRANULARITY_MS, resuming := false, queueRunning := false, log := [], mail := []);
    assert Boot(1, 2, 1, 1, []) == s0;
    var s1 := s0.(procs := [WAITING], next := 0, log := [Spawned(0)], mail := [Born(0)]);
    NobodyElse();
    assert s0.procs[0 := WAITING] == [WAITING];
    ProgramStarts(s0, 0, s1);
    One(s0, Startup(PROGRAM), s1);
    var s2 := s1.(queueRunning := true);
    Next(s0, [Startup(PROGRAM)], s1, StartQueue, s2);
    assert HandedTo(s2, 0).procs == [ACTIVE];
    HandsOver(s2, 0);
    LeadsExecutes(s2, [Idle], end);
    GoOn(s0, [Startup(PROGRAM)] + [StartQueue], s2, [Idle]);
  }

  lemma Next(s: State, first: seq<Action>, s1: State, a: Action, s2: State)
    requires Execute(s, first) == Ok(s1) && Enabled(s1, a) && Step(s1, a) == Ok(s2)
    ensures Execute(s, first + [a]) == Ok(s2)
  {
    hide Step, Enabled, Execute;
    One(s1, a, s2);
    GoOn(s, first, s1, [a]);
  }

  lemma Registers(s: State, r: Registration, listeners: seq<Listener>)
    requires s == AloneStarted(s.listeners) && |s.listeners| == 2 && r.handler && r.decoder && !r.bindingRequired && r.mask == 0
    requires r.path != [] && |r.path| <= MAX_LENGTH && !DirectPath(r.path)
    requires NotificationPath(r.path) || GlobalPath(r.path)
    requires GlobalPath(r.path) ==> NextListener(s.listeners, r.path, 0) == 2
    requires FreeListener(s.listeners, 0) < 2
    requires listeners == s.listeners[FreeListener(s.listeners, 0) := Listener(0, r.path, false, 0)]
    ensures Execute(s, [Call(CallRegister(r))] + [IsrEnd]) == Ok(AloneStarted(listeners))
  {
    hide Leads, Execute, WaitsThroughout, GlobalPath, DirectPath, NotificationPath, FreeListener, NextListener;
    var s1 := AloneStarted(listeners).(isr := 1);
    One(s, Call(CallRegister(r)), s1);
    Next(s, [Call(CallRegister(r))], s1, IsrEnd, AloneStarted(listeners));
  }

  lemma AloneIsReady()
    ensures Execute(Boot(1, 2, 1, 1, []), PREPARING) == Ok(AloneStarted([HEARS, MINE]))
  {
    hide Execute, Step, GlobalPath, DirectPath, NotificationPath, Matches;
    var s0, starting := Boot(1, 2, 1, 1, []), [Startup(PROGRAM)] + [StartQueue] + [Idle];
    AloneStarts();
    PathsAreValid();
    PathIsGlobal();
    var s1 := AloneStarted([NO_LISTENER, NO_LISTENER]);
    var hear := Registration(SESSION_DESTROYED, true, true, false, 0);
    assert FreeListener(s1.listeners, 0) == 0 && s1.listeners[0 := HEARS] == [HEARS, NO_LISTENER];
    Registers(s1, hear, [HEARS, NO_LISTENER]);
    GoOn(s0, starting, s1, [Call(CallRegister(hear))] + [IsrEnd]);
    var s2 := AloneStarted([HEARS, NO_LISTENER]);
    assert FreeListener(s2.listeners, 1) == 1 && NextListener(s2.listeners, "a", 2) == 2 && NextListener(s2.listeners, "a", 1) == 2;
    assert s2.listeners[1 := MINE] == [HEARS, MINE];
    Registers(s2, Registration("a", true, true, false, 0), [HEARS, MINE]);
    GoOn(s0, starting + ([Call(CallRegister(hear))] + [IsrEnd]), s2, LISTENING);
  }

  /**
    * A process with seven messages in its run loop ends a binding of its own with an eighth: the notice about it is refused,
    * and the machine halts.
    */
  lemma NoticeCanBeRefused() returns (run: seq<Action>, s: State, a: Action)
    ensures Reaches(ALONE, run, s) && Enabled(s, a) && RefusalAhead(s, a)
    ensures Execute(Boot(1, 2, 1, 1, []), run + [a]) == Halt(NotificationRefused)
  {
    hide Execute, Step, RefusalAhead, Boot;
    var ready := AloneStarted([HEARS, MINE]);
    AloneIsReady();
    s := SevenWait(ready, 0);
    run := PREPARING + TalkingFrom(0);
    GoOn(Boot(1, 2, 1, 1, []), PREPARING, ready, TalkingFrom(0));
    a := Call(CallSend(Talk(Unbind)));
    NoticeIsRefused(s);
    NoticeRefusedIff(ALONE, run, s, a);
    GoOn(Boot(1, 2, 1, 1, []), run, s, [a]);
    HaltsAtOnce(s, a);
  }

  lemma NoticeIsRefused(s: State)
    requires TalksToItself(s, 7)
    ensures RefusalAhead(s, Call(CallSend(Talk(Unbind)))) && Enabled(s, Call(CallSend(Talk(Unbind))))
  {
    hide GlobalPath, DirectPath, Matches, Receiver;
    PathsAreValid();
    FindsItself(s, 7, Unbind);
    assert ListensAt(s.listeners[0], 0);
    assert FindBinding(s.bindings, 0, 0, 0) == 0;
  }

  lemma HaltsAtOnce(s: State, a: Action)
    requires Enabled(s, a) && Step(s, a).Halt?
    ensures Execute(s, [a]) == Halt(Step(s, a).reason)
  {
    hide Step, Enabled;
  }
}
