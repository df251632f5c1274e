/** Kernel and paging in one machine: what a process has in the kernel's tables are its translations, and each takes a frame. */
module KernelMemory {
  import opened Arithmetic
  import opened Counting
  import opened Outcomes
  import opened RunLoopSpec
  import opened Words
  import IpcPath
  import opened KernelState
  import opened KernelInvariant
  import opened KernelCalls
  import opened KernelTasks
  import opened KernelRuns
  import opened KernelTheorems
  import P = PagingState
  import PP = PagingProofs
  import PT = PagingTheorems

  const USER_PAGES: nat := P.USER_DIRS * P.MAX_PAGE_ENTRY

  /** The pages of the user area that are somewhere. */
  ghost function UserPages(info: P.Info): (pages: set<int>)
    ensures forall page :: page in pages <==> 0 <= page < USER_PAGES && P.Translate(info, page).Some?
  {
    set page: int | 0 <= page < USER_PAGES && P.Translate(info, page).Some?
  }

  // ---------------------------------------------------------------- the machine

  datatype Machine = Machine(s: State, m: P.Memory)

  /** A section of an executable that takes memory. */
  datatype Area = Area(start: uint32, size: uint32)

  /** What is found when a program is to be started; a broken one is found out after a process was spawned for it. */
  datatype Program = Unreadable | Broken | Executable(sections: seq<Area>, entry: nat)

  const STACK_BYTES: nat := 256 * 1024
  const STACK := Area(P.ADDRESS_SPACE - P.KERNEL_BYTES - STACK_BYTES, STACK_BYTES)

  /** Memory for the sections; false for one that is refused. */
  function AskAll(m: P.Memory, p: int, sections: seq<Area>): Outcome<(P.Memory, bool)>
    decreases |sections|
  {
    if sections == [] then Ok((m, true))
    else
      var (m1, e) :- P.Gimme(m, p, sections[0].start, sections[0].size);
      if !PT.Succeeded(e) then Ok((m1, false)) else AskAll(m1, p, sections[1..])
  }

  /** The heap starts where the highest section ends. */
  function HeapOf(sections: seq<Area>): nat {
    if sections == [] then 0
    else
      var end := (sections[|sections| - 1].start + sections[|sections| - 1].size) % WORD;
      var before := HeapOf(sections[..|sections| - 1]);
      if end > before then end else before
  }

  /** Loading for the process p: the memory afterwards, and how far it got. */
  ghost function LoadFor(m: P.Memory, p: nat, x: Program): Outcome<(P.Memory, Image)> {
    match x
    case Unreadable => Ok((m, NotLoaded))
    case Broken => Ok((m, Faulty))
    case Executable(sections, entry) =>
      var (m1, all) :- AskAll(m, p, sections);
      if !all then Ok((m1, Faulty))
      else
        var (m2, e) :- P.Gimme(m1, p, STACK.start, STACK.size);
        var pages := if p < |m2.infos| then UserPages(m2.infos[p]) else {};
        if e == P.NoMemError then Ok((m2, Loaded(pages, entry, HeapOf(sections))))
        else
          var m3 :- P.Cleanup(m2, p);
          Ok((m3, NoStack(pages)))
  }

  /** The same when the process is still to be spawned. */
  ghost function Load(j: Machine, x: Program): Outcome<(P.Memory, Image)> {
    var p := FreeSlot(j.s.procs, 0);
    if x.Unreadable? || p < |j.s.procs| then LoadFor(j.m, p, x) else Ok((j.m, NoStack({})))
  }

  datatype Act =
    | Ordinary(a: Action)                  // a step that has nothing to do with memory
    | Boot(x: Program)                     // a program started before the queue runs
    | Serve(x: Program)                    // the head of the queue is run; the program matters if it starts one
    | Ask(addr: uint32, count: uint32)     // system calls for pages
    | Give(addr: uint32)

  predicate TouchesMemory(a: Action) {
    a.Startup? || a.RunHead? || (a.Call? && (a.call.CallMemPlz? || a.call.CallMemThx?))
  }

  predicate CanTake(j: Machine, act: Act) {
    match act
    case Ordinary(a) => !TouchesMemory(a) && Enabled(j.s, a)
    case Boot(_) => Enabled(j.s, Startup(NotLoaded))
    case Serve(_) => Enabled(j.s, RunHead(NotLoaded))
    case Ask(_, _) => Enabled(j.s, Call(CallYield))
    case Give(_) => Enabled(j.s, Call(CallYield))
  }

  ghost function Asked(j: Machine, addr: uint32, count: uint32): Outcome<Machine>
    requires CanTake(j, Ask(addr, count))
  {
    if addr % P.PAGE_BYTES != 0 then
      var s1 :- Step(j.s, Call(CallMemPlz({})));
      Ok(Machine(s1, j.m))
    else
      var (m1, _) :- P.Gimme(j.m, j.s.current, addr, count * P.PAGE_BYTES % WORD);
      var pages := if j.s.current < |m1.infos| then UserPages(m1.infos[j.s.current]) else {};
      var s1 :- Step(j.s, Call(CallMemPlz(pages)));
      Ok(Machine(s1, m1))
  }

  /** Page 0 is refused without a halt, and so is an address inside a page. */
  function Given(j: Machine, addr: uint32): Outcome<Machine>
    requires CanTake(j, Give(addr))
  {
    var page := if addr % P.PAGE_BYTES != 0 then 0 else addr / P.PAGE_BYTES;
    var s1 :- Step(j.s, Call(CallMemThx(page)));
    var m1 :- if page == 0 then Ok(j.m) else P.ReleasePage(j.m, j.s.current, page);
    Ok(Machine(s1, m1))
  }

  ghost function Served(j: Machine, x: Program): Outcome<Machine>
    requires CanTake(j, Serve(x))
  {
    match j.s.todo[0]
    case Start(_) =>
      var (m1, image) :- Load(j, x);
      var s1 :- Step(j.s, RunHead(image));
      Ok(Machine(s1, m1))
    case ProcCleanup(p) =>
      var s1 :- Step(j.s, RunHead(NotLoaded));
      var m1 :- P.Cleanup(j.m, p);
      Ok(Machine(s1, m1))
    case _ =>
      var s1 :- Step(j.s, RunHead(NotLoaded));
      Ok(Machine(s1, j.m))
  }

  ghost function Take(j: Machine, act: Act): Outcome<Machine>
    requires CanTake(j, act)
  {
    match act
    case Ordinary(a) =>
      var s1 :- Step(j.s, a);
      Ok(Machine(s1, j.m))
    case Boot(x) =>
      var (m1, image) :- Load(j, x);
      var s1 :- Step(j.s, Startup(image));
      Ok(Machine(s1, m1))
    case Serve(x) => Served(j, x)
    case Ask(addr, count) => Asked(j, addr, count)
    case Give(addr) => Given(j, addr)
  }

  // ---------------------------------------------------------------- the two together

  /** The kernel's page sets are the translations. */
  ghost predicate Joined(j: Machine) {
    && PP.MemoryOk(j.m)
    && |j.s.mapped| == |j.m.infos|
    && forall p :: 0 <= p < |j.m.infos| ==> j.s.mapped[p] == UserPages(j.m.infos[p])
  }

  ghost predicate Sound(j: Machine) {
    Inv(j.s) && Joined(j)
  }

  // ---------------------------------------------------------------- steps that leave the pages alone

  lemma DeliverKeepsPages(s: State, l: Listener, source: int, bytes: nat, replyBytes: nat, token: nat)
    ensures Deliver(s, l, source, bytes, replyBytes, token).Ok? ==>
      Deliver(s, l, source, bytes, replyBytes, token).value.0.mapped == s.mapped
  {
  }

  lemma DestroyKeepsPages(s: State, i: nat, requester: int)
    requires i < |s.bindings|
    ensures DestroyBindingAt(s, i, requester).Ok? ==> DestroyBindingAt(s, i, requester).value.mapped == s.mapped
  {
    hide Deliver;
    var target := if s.bindings[i].receiver == requester then s.bindings[i].sender else s.bindings[i].receiver;
    var l := FindListener(s.listeners, IpcPath.SESSION_DESTROYED, false, target, 0);
    if l < |s.listeners| {
      DeliverKeepsPages(s, s.listeners[l], KERNEL_PROC_ID, PROC_ID_BYTES, 0, |s.replies|);
    }
  }

  lemma BindKeepsPages(s: State, peer: int, p: int, b: BindData)
    ensures ApplyBind(s, peer, p, b).Ok? ==> ApplyBind(s, peer, p, b).value.0.mapped == s.mapped
  {
    hide DestroyBindingAt;
    var i := FindBinding(s.bindings, peer, p, 0);
    if i < |s.bindings| {
      DestroyKeepsPages(s, i, p);
    }
  }

  lemma SendKeepsPages(s: State, p: int, q: Query)
    ensures Send(s, p, q).Ok? ==> Send(s, p, q).value.0.mapped == s.mapped
  {
    hide TakeToken, Deliver, ApplyBind;
    var i := FindListener(s.listeners, q.path, IpcPath.GlobalPath(q.path), q.target, 0);
    if i < |s.listeners| {
      SendToKeepsPages(s, p, s.listeners[i], q);
    }
  }

  lemma SendToKeepsPages(s: State, p: int, l: Listener, q: Query)
    ensures SendTo(s, p, l, q).Ok? ==> SendTo(s, p, l, q).value.0.mapped == s.mapped
  {
    hide TakeToken, Deliver, ApplyBind;
    TakeTokenKeepsPages(s, p, l.procId, q.replyBytes);
    var taken := if q.replyBytes == 0 then Ok((s, |s.replies|)) else TakeToken(s, p, l.procId, q.replyBytes);
    if taken.Ok? {
      var (s1, token) := taken.value;
      DeliverKeepsPages(s1, l, p, q.bytes, q.replyBytes, token);
      var sent := Deliver(s1, l, p, q.bytes, q.replyBytes, token);
      if sent.Ok? {
        var s2 := sent.value.0;
        BindKeepsPages(if l.bindingRequired then s2.(log := s2.log + [BoundMessage(p, l.procId, l.mask)]) else s2, l.procId, p, q.bind);
      }
    }
  }

  lemma TakeTokenKeepsPages(s: State, p: int, handler: int, bytes: nat)
    ensures TakeToken(s, p, handler, bytes).Ok? ==> TakeToken(s, p, handler, bytes).value.0.mapped == s.mapped
  {
  }

  lemma ReplyKeepsPages(s: State, p: int, r: ReplyInfo)
    ensures SendReply(s, p, r).Ok? ==> SendReply(s, p, r).value.0.mapped == s.mapped
  {
    hide ApplyBind;
    if r.token < |s.replies| {
      BindKeepsPages(s, s.replies[r.token].sender, p, r.bind);
    }
  }

  lemma {:induction false} CleanTokensKeepsPages(s: State, p: int, i: nat)
    requires i <= |s.replies|
    ensures CleanTokens(s, p, i).Ok? ==> CleanTokens(s, p, i).value.mapped == s.mapped
    decreases |s.replies| - i
  {
    if i < |s.replies| {
      var r := if s.replies[i].handler == p then FailReply(s, i)
               else Ok(if s.replies[i].sender == p then s.(replies := s.replies[i := NO_REPLY]) else s);
      if r.Ok? && |r.value.replies| == |s.replies| {
        CleanTokensKeepsPages(r.value, p, i + 1);
      }
    }
  }

  lemma {:induction false} CleanBindingsKeepsPages(s: State, p: int, i: nat)
    requires i <= |s.bindings|
    ensures CleanBindings(s, p, i).Ok? ==> CleanBindings(s, p, i).value.mapped == s.mapped
    decreases |s.bindings| - i
  {
    hide DestroyBindingAt;
    if i < |s.bindings| {
      DestroyKeepsPages(s, i, p);
      var r := if s.bindings[i].sender == p then DestroyBindingAt(s, i, p)
               else Ok(if s.bindings[i].receiver == p then s.(bindings := s.bindings[i := NO_BINDING]) else s);
      if r.Ok? && |r.value.bindings| == |s.bindings| {
        CleanBindingsKeepsPages(r.value, p, i + 1);
      }
    }
  }

  lemma CleanIpcKeepsPages(s: State, p: int)
    ensures CleanIpc(s, p).Ok? ==> CleanIpc(s, p).value.mapped == s.mapped
  {
    hide CleanTokens, CleanBindings;
    var s0 := s.(listeners := WithoutListenersOf(s.listeners, p));
    CleanTokensKeepsPages(s0, p, 0);
    if CleanTokens(s0, p, 0).Ok? {
      CleanBindingsKeepsPages(CleanTokens(s0, p, 0).value, p, 0);
    }
  }

  lemma CallKeepsPages(s: State, p: int, call: Syscall)
    requires 0 <= p < |s.loops| && p < |s.mapped| && !call.CallMemPlz? && !call.CallMemThx?
    ensures Perform(s, p, call).Ok? ==> Perform(s, p, call).value.mapped == s.mapped
  {
    hide Send, SendReply, FetchItem, FetchData;
    match call
    case CallSend(q) => SendKeepsPages(s, p, q);
    case CallReply(r) => ReplyKeepsPages(s, p, r);
    case _ =>
  }

  lemma OrdinaryKeepsPages(s: State, a: Action)
    requires Enabled(s, a) && !TouchesMemory(a)
    ensures Step(s, a).Ok? ==> Step(s, a).value.mapped == s.mapped
  {
    hide Perform, CallbackInvoke;
    match a
    case Call(call) => CallKeepsPages(s.(isr := 1), s.current, call);
    case DeviceIrq(d, bytes) => EmitKeepsPages(s.(isr := 1), d, bytes);
    case _ =>
  }

  lemma EmitKeepsPages(s: State, d: nat, bytes: nat)
    ensures Emit(s, d, bytes).Ok? ==> Emit(s, d, bytes).value.0.mapped == s.mapped
  {
  }

  lemma TaskKeepsPages(s: State, image: Image)
    requires Enabled(s, RunHead(image)) && !s.todo[0].Start? && !s.todo[0].ProcCleanup?
    ensures Step(s, RunHead(image)).Ok? ==> Step(s, RunHead(image)).value.mapped == s.mapped
  {
    hide CleanIpc, ProcSelect;
    match s.todo[0]
    case IpcCleanup(p) => CleanIpcKeepsPages(s, p);
    case _ =>
  }

  // ---------------------------------------------------------------- what the steps about memory do

  lemma SameThroughout(m: P.Memory, m1: P.Memory, m2: P.Memory, p: nat)
    requires p < |m.infos| && PP.OnlyProcess(m, m1, p) && PP.OnlyProcess(m1, m2, p)
    ensures PP.OnlyProcess(m, m2, p)
  {
  }

  lemma NobodyChanged(m: P.Memory, p: nat)
    ensures PP.OnlyProcess(m, m, p)
  {
  }

  /** A request only adds pages to its process, also when it fails. */
  lemma GimmeAddsPages(m: P.Memory, p: nat, start: uint32, size: uint32)
    requires PP.MemoryOk(m) && p < |m.infos|
    ensures match P.Gimme(m, p, start, size)
            case Ok((m', _)) =>
              PP.MemoryOk(m') && PP.OnlyProcess(m, m', p) && UserPages(m.infos[p]) <= UserPages(m'.infos[p])
            case Halt(_) => false
  {
    hide PP.MemoryOk, P.Assign, P.Translate, PP.FreeFrames, PT.NewPages, PT.CodeOk;
    NobodyChanged(m, p);
    PT.EndDoesNotWrap(start, size);
    if PT.InUserArea(start, size) {
      var first := start / P.PAGE_BYTES;
      var count := Aligned(start + size, P.PAGE_BYTES) / P.PAGE_BYTES - first;
      PT.RequestCoversItsBytes(start, size, first);
      PT.AssignIsSound(m, p, first, count);
    }
  }

  lemma {:induction false} AskAllAddsPages(m: P.Memory, p: nat, sections: seq<Area>)
    requires PP.MemoryOk(m) && p < |m.infos|
    ensures match AskAll(m, p, sections)
            case Ok((m', _)) => PP.MemoryOk(m') && PP.OnlyProcess(m, m', p)
            case Halt(_) => false
    decreases |sections|
  {
    hide PP.MemoryOk, P.Gimme, PP.OnlyProcess;
    NobodyChanged(m, p);
    if sections != [] {
      GimmeAddsPages(m, p, sections[0].start, sections[0].size);
      var (m1, e) := P.Gimme(m, p, sections[0].start, sections[0].size).value;
      SizesOf(m, m1, p);
      if PT.Succeeded(e) {
        AskAllAddsPages(m1, p, sections[1..]);
        SameThroughout(m, m1, AskAll(m1, p, sections[1..]).value.0, p);
      }
    }
  }

  lemma SizesOf(m: P.Memory, m1: P.Memory, p: nat)
    requires PP.OnlyProcess(m, m1, p)
    ensures |m1.infos| == |m.infos|
  {
  }

  lemma CleanupEmpties(m: P.Memory, p: nat)
    requires PP.MemoryOk(m) && p < |m.infos|
    ensures match P.Cleanup(m, p)
            case Ok(m') => PP.MemoryOk(m') && PP.OnlyProcess(m, m', p) && UserPages(m'.infos[p]) == {}
            case Halt(_) => false
  {
    hide PP.MemoryOk, P.Translate, P.Cleanup, PP.FreeFrames;
    PT.CleanupIsSound(m, p);
    var info := P.EmptyInfo(|m.infos[p].used|);
    forall page: nat | page < USER_PAGES
      ensures P.Translate(info, page).None?
    {
      PT.EmptyInfoTranslates(|m.infos[p].used|, page);
    }
  }

  /** However far the loading gets, the process has the pages that the kernel notes for it. */
  lemma LoadForMatches(m: P.Memory, p: nat, x: Program)
    requires PP.MemoryOk(m) && p < |m.infos|
    ensures match LoadFor(m, p, x)
            case Ok((m', image)) =>
              && PP.MemoryOk(m') && PP.OnlyProcess(m, m', p)
              && (image.NotLoaded? <==> x.Unreadable?)
              && (image.NotLoaded? ==> m' == m)
              && (image.NoStack? ==> UserPages(m'.infos[p]) == {})
              && (image.Loaded? ==> UserPages(m'.infos[p]) == image.pages)
            case Halt(_) => false
  {
    hide PP.MemoryOk, P.Gimme, P.Cleanup, AskAll, UserPages, PP.OnlyProcess;
    NobodyChanged(m, p);
    if x.Executable? {
      AskAllAddsPages(m, p, x.sections);
      var (m1, all) := AskAll(m, p, x.sections).value;
      SizesOf(m, m1, p);
      if all {
        GimmeAddsPages(m1, p, STACK.start, STACK.size);
        var (m2, e) := P.Gimme(m1, p, STACK.start, STACK.size).value;
        SizesOf(m1, m2, p);
        SameThroughout(m, m1, m2, p);
        CleanupEmpties(m2, p);
        if e != P.NoMemError {
          SameThroughout(m, m2, P.Cleanup(m2, p).value, p);
        }
      }
    }
  }

  /** What starting a program notes about pages. */
  lemma StartNotesPages(s: State, image: Image)
    ensures StartImage(s, image).Ok? ==>
      var p := FreeSlot(s.procs, 0);
      var s' := StartImage(s, image).value;
      s'.mapped == if image.NotLoaded? || p >= |s.procs| || p >= |s.mapped| then s.mapped
                   else s.mapped[p := if image.Loaded? then image.pages else {}]
  {
    hide ProcSelect, FreeSlot;
  }

  lemma StartNoteAndRetire(s: State, image: Image)
    requires Enabled(s, RunHead(image)) && s.todo[0].Start?
    ensures Step(s, RunHead(image)).Ok? ==> StartImage(s, image).Ok? && Step(s, RunHead(image)).value.mapped == StartImage(s, image).value.mapped
  {
    hide StartImage;
  }

  /** What the kernel notes for the new process is what it got. */
  lemma LoadKeepsJoined(j: Machine, x: Program)
    requires Sound(j)
    ensures match Load(j, x)
            case Ok((m', image)) =>
              && PP.SameHardware(j.m.frames, m'.frames)
              && (StartImage(j.s, image).Ok? ==> Joined(Machine(j.s.(mapped := StartImage(j.s, image).value.mapped), m')))
            case Halt(_) => false
  {
    hide Inv, PP.MemoryOk, LoadFor, StartImage, FreeSlot, UserPages, PP.SameHardware;
    SameAsItself(j.m.frames);
    SizesMatch(j.s);
    FreeSlotIsLowest(j.s.procs, 0);
    var p := FreeSlot(j.s.procs, 0);
    if p < |j.s.procs| {
      LoadForMatches(j.m, p, x);
    }
    NothingLoads(j.m, p);
    var (m', image) := Load(j, x).value;
    StartNotesPages(j.s, image);
    FaultyHalts(j.s);
  }

  lemma NothingLoads(m: P.Memory, p: nat)
    ensures LoadFor(m, p, Unreadable) == Ok((m, NotLoaded))
  {
  }

  lemma FaultyHalts(s: State)
    ensures FreeSlot(s.procs, 0) < |s.procs| ==> StartImage(s, Faulty).Halt?
  {
  }

  lemma SizesMatch(s: State)
    requires Inv(s)
    ensures |s.mapped| == |s.loops| == |s.procs|
    ensures s.kernel.Running? || 0 <= s.current < |s.procs|
  {
    hide HistoryOk;
  }

  // ---------------------------------------------------------------- every step keeps them together

  /** What becomes of the two, or why they halt: always the kernel's reason. */
  ghost predicate GoesWell(j: Machine, r: Outcome<Machine>) {
    match r
    case Ok(j') => Sound(j') && PP.SameHardware(j.m.frames, j'.m.frames)
    case Halt(why) => Excused(why)
  }

  lemma OrdinaryKeeps(j: Machine, a: Action)
    requires Sound(j) && CanTake(j, Ordinary(a))
    ensures GoesWell(j, Take(j, Ordinary(a)))
  {
    hide Inv, PP.MemoryOk, UserPages, Step, Enabled;
    SameAsItself(j.m.frames);
    StepKeeps(j.s, a);
    OrdinaryKeepsPages(j.s, a);
  }

  lemma BootKeeps(j: Machine, x: Program)
    requires Sound(j) && CanTake(j, Boot(x))
    ensures GoesWell(j, Take(j, Boot(x)))
  {
    hide Inv, Load, StartImage, Joined;
    JoinedSizes(j);
    LoadKeepsJoined(j, x);
    var (m', image) := Load(j, x).value;
    StepKeeps(j.s, Startup(image));
    var r := Step(j.s, Startup(image));
    if r.Ok? {
      JoinedAlike(Machine(j.s.(mapped := r.value.mapped), m'), r.value);
    }
  }

  lemma JoinedSizes(j: Machine)
    requires Joined(j)
    ensures |j.m.infos| == |j.s.mapped|
  {
  }

  lemma HardwareStays(a: seq<P.Frame>, b: seq<P.Frame>, c: seq<P.Frame>)
    requires PP.SameHardware(a, b) && PP.SameHardware(b, c)
    ensures PP.SameHardware(a, a) && PP.SameHardware(a, c)
  {
  }

  lemma SameAsItself(frames: seq<P.Frame>)
    ensures PP.SameHardware(frames, frames)
  {
  }

  lemma JoinedAlike(j: Machine, s: State)
    requires Joined(j) && s.mapped == j.s.mapped
    ensures Joined(Machine(s, j.m))
  {
  }

  lemma ServeKeeps(j: Machine, x: Program)
    requires Sound(j) && CanTake(j, Serve(x))
    ensures GoesWell(j, Served(j, x))
  {
    hide Inv, Load, StartImage, Joined, Step, P.Cleanup;
    SameAsItself(j.m.frames);
    var t := j.s.todo[0];
    if t.Start? {
      LoadKeepsJoined(j, x);
      var (m', image) := Load(j, x).value;
      assert Enabled(j.s, RunHead(image));
      StepKeeps(j.s, RunHead(image));
      StartNoteAndRetire(j.s, image);
      var r := Step(j.s, RunHead(image));
      if r.Ok? {
        JoinedAlike(Machine(j.s.(mapped := StartImage(j.s, image).value.mapped), m'), r.value);
      }
    } else {
      StepKeeps(j.s, RunHead(NotLoaded));
      var r := Step(j.s, RunHead(NotLoaded));
      if t.ProcCleanup? {
        ProcCleanupKeeps(j, t.p);
      } else {
        TaskKeepsPages(j.s, NotLoaded);
        if r.Ok? {
          JoinedAlike(j, r.value);
        }
      }
    }
  }

  lemma ProcCleanupKeeps(j: Machine, p: int)
    requires Sound(j) && CanTake(j, Serve(Unreadable)) && j.s.todo[0] == ProcCleanup(p)
    ensures match Step(j.s, RunHead(NotLoaded))
            case Ok(s') =>
              && P.Cleanup(j.m, p).Ok? && Joined(Machine(s', P.Cleanup(j.m, p).value))
              && PP.SameHardware(j.m.frames, P.Cleanup(j.m, p).value.frames)
            case Halt(_) => true
  {
    hide Inv, PP.MemoryOk, UserPages, P.Cleanup, PP.SameHardware;
    SizesMatch(j.s);
    if IsUser(j.s.procs, p) {
      CleanupEmpties(j.m, p);
    }
  }

  /** The pages of the caller change as a request or a release changes its translations. */
  lemma CallerJoins(j: Machine, m': P.Memory, s': State, p: nat)
    requires Joined(j) && p < |j.m.infos| && PP.MemoryOk(m') && PP.OnlyProcess(j.m, m', p)
    requires s'.mapped == j.s.mapped[p := UserPages(m'.infos[p])]
    ensures Joined(Machine(s', m')) && PP.SameHardware(j.m.frames, m'.frames)
  {
    hide PP.MemoryOk, UserPages, PP.SameHardware;
  }

  lemma AskKeeps(j: Machine, addr: uint32, count: uint32)
    requires Sound(j) && CanTake(j, Ask(addr, count))
    ensures GoesWell(j, Asked(j, addr, count))
  {
    hide Inv, PP.MemoryOk, UserPages, PP.OnlyProcess, P.Gimme;
    SameAsItself(j.m.frames);
    SizesMatch(j.s);
    var p := j.s.current;
    if addr % P.PAGE_BYTES != 0 {
      StepKeeps(j.s, Call(CallMemPlz({})));
      AskingForPages(j.s, {});
      assert j.s.mapped[p] + {} == j.s.mapped[p];
      assert j.s.mapped[p := j.s.mapped[p]] == j.s.mapped;
    } else {
      GimmeAddsPages(j.m, p, addr, count * P.PAGE_BYTES % WORD);
      var m1 := P.Gimme(j.m, p, addr, count * P.PAGE_BYTES % WORD).value.0;
      SizesOf(j.m, m1, p);
      var pages := UserPages(m1.infos[p]);
      StepKeeps(j.s, Call(CallMemPlz(pages)));
      AskingForPages(j.s, pages);
      assert j.s.mapped[p] + pages == pages;
      CallerJoins(j, m1, Step(j.s, Call(CallMemPlz(pages))).value, p);
    }
  }

  lemma AskingForPages(s: State, pages: set<int>)
    requires Enabled(s, Call(CallMemPlz(pages)))
    ensures match Step(s, Call(CallMemPlz(pages)))
            case Ok(s') => s'.mapped == s.mapped[s.current := s.mapped[s.current] + pages]
            case Halt(_) => false
  {
  }

  lemma GivingPage(s: State, page: int)
    requires Enabled(s, Call(CallMemThx(page)))
    ensures match Step(s, Call(CallMemThx(page)))
            case Ok(s') =>
              if page == 0 then s'.mapped == s.mapped
              else page in s.mapped[s.current] && s'.mapped == s.mapped[s.current := s.mapped[s.current] - {page}]
            case Halt(why) => page != 0 && page !in s.mapped[s.current]
  {
  }

  /** The kernel takes a page back exactly when paging does. */
  lemma GiveKeeps(j: Machine, addr: uint32)
    requires Sound(j) && CanTake(j, Give(addr))
    ensures GoesWell(j, Given(j, addr))
  {
    hide Inv, PP.MemoryOk, UserPages, PP.OnlyProcess, P.ReleasePage;
    SameAsItself(j.m.frames);
    SizesMatch(j.s);
    var page := if addr % P.PAGE_BYTES != 0 then 0 else addr / P.PAGE_BYTES;
    StepKeeps(j.s, Call(CallMemThx(page)));
    GivingPage(j.s, page);
    var r := Step(j.s, Call(CallMemThx(page)));
    if r.Ok? {
      if page == 0 {
        JoinedAlike(j, r.value);
      } else {
        ReleaseRemovesPage(j.m, j.s.current, page);
        CallerJoins(j, P.ReleasePage(j.m, j.s.current, page).value, r.value, j.s.current);
      }
    }
  }

  lemma ReleaseRemovesPage(m: P.Memory, p: nat, page: nat)
    requires PP.MemoryOk(m) && p < |m.infos| && page != 0
    ensures P.ReleasePage(m, p, page).Ok? <==> page in UserPages(m.infos[p])
    ensures page in UserPages(m.infos[p]) ==>
      var m' := P.ReleasePage(m, p, page).value;
      && PP.MemoryOk(m') && PP.OnlyProcess(m, m', p)
      && UserPages(m'.infos[p]) == UserPages(m.infos[p]) - {page}
  {
    hide PP.MemoryOk, P.Translate, P.ReleasePage, PP.FreeFrames;
    PT.ReleaseIsSound(m, p, page);
  }

  /** No step of the machine, whatever it does to memory, parts the two; and paging is never the reason for a halt. */
  lemma TakeKeeps(j: Machine, act: Act)
    requires Sound(j) && CanTake(j, act)
    ensures GoesWell(j, Take(j, act))
  {
    hide Inv, Joined, GoesWell, Served, Asked, Given, Load, Step;
    match act
    case Ordinary(a) => OrdinaryKeeps(j, a);
    case Boot(x) => BootKeeps(j, x);
    case Serve(x) => ServeKeeps(j, x);
    case Ask(addr, count) => AskKeeps(j, addr, count);
    case Give(addr) => GiveKeeps(j, addr);
  }

  // ---------------------------------------------------------------- runs

  ghost function TakeAll(j: Machine, acts: seq<Act>): Outcome<Machine>
    decreases |acts|
  {
    if acts == [] then Ok(j)
    else if !CanTake(j, acts[0]) then TakeAll(j, acts[1..])
    else
      var j1 :- Take(j, acts[0]);
      TakeAll(j1, acts[1..])
  }

  lemma {:induction false} TakeAllKeeps(j: Machine, acts: seq<Act>)
    requires Sound(j)
    ensures GoesWell(j, TakeAll(j, acts))
    decreases |acts|
  {
    hide Sound, Take, CanTake, PP.SameHardware;
    SameAsItself(j.m.frames);
    if acts != [] {
      if !CanTake(j, acts[0]) {
        TakeAllKeeps(j, acts[1..]);
      } else {
        TakeKeeps(j, acts[0]);
        if Take(j, acts[0]).Ok? {
          var j1 := Take(j, acts[0]).value;
          TakeAllKeeps(j1, acts[1..]);
          if TakeAll(j1, acts[1..]).Ok? {
            HardwareStays(j.m.frames, j1.m.frames, TakeAll(j1, acts[1..]).value.m.frames);
          }
        }
      }
    }
  }

  // ---------------------------------------------------------------- frames

  /** Every page of a process has a frame of its own, and every frame it owns is behind a page. */
  lemma FramesAreBehindPages(m: P.Memory, p: nat)
    requires PP.MemoryOk(m) && p < |m.infos|
    ensures forall page :: page in UserPages(m.infos[p]) ==> FrameOf(m.infos[p], page) in PP.Owned(m, p)
    ensures forall f :: f in PP.Owned(m, p) ==> exists page :: page in UserPages(m.infos[p]) && FrameOf(m.infos[p], page) == f
    ensures forall a, b ::
      a in UserPages(m.infos[p]) && b in UserPages(m.infos[p]) && FrameOf(m.infos[p], a) == FrameOf(m.infos[p], b) ==> a == b
  {
    hide PP.MemoryOk, PP.FramesOk, PP.DirOk, PP.PagesOk, P.Translate;
    var info := m.infos[p];
    forall page | page in UserPages(info)
      ensures FrameOf(info, page) in PP.Owned(m, p)
    {
      var s := SlotOf(m, p, page);
      MappedFrameExists(m, s, FrameOf(info, page));
    }
    forall f | f in PP.Owned(m, p)
      ensures exists page :: page in UserPages(info) && FrameOf(info, page) == f
    {
      var s :| PP.Maps(m.infos, s, f) && s.p == p;
      var page := PageOf(m, s, f);
    }
    forall a, b | a in UserPages(info) && b in UserPages(info) && FrameOf(info, a) == FrameOf(info, b)
      ensures a == b
    {
      var s := SlotOf(m, p, a);
      var r := SlotOf(m, p, b);
      SameSlot(m, s, r, FrameOf(info, a));
      SlotIsPage(m, p, a, b, s);
    }
  }

  ghost function FrameOf(info: P.Info, page: int): int {
    if page >= 0 && P.Translate(info, page).Some? then P.Translate(info, page).value else -1
  }

  /** Where the entry of a page is. */
  ghost predicate IsSlotOf(info: P.Info, p: nat, page: nat, s: PP.Slot) {
    && P.DirIndex(page) < |info.dir| && info.dir[P.DirIndex(page)].present
    && info.dir[P.DirIndex(page)].table == P.UserTable(s.t)
    && s.p == p && s.i == P.TableIndex(page)
  }

  lemma SlotOf(m: P.Memory, p: nat, page: nat) returns (s: PP.Slot)
    requires PP.MemoryOk(m) && p < |m.infos| && page in UserPages(m.infos[p])
    ensures PP.Maps(m.infos, s, FrameOf(m.infos[p], page)) && IsSlotOf(m.infos[p], p, page, s)
  {
    hide PP.FramesOk;
    var d := m.infos[p].dir[P.DirIndex(page)];
    assert PP.UsesTable(m.infos[p], P.DirIndex(page));
    s := PP.Slot(p, d.table.index, P.TableIndex(page));
  }

  lemma PageOf(m: P.Memory, s: PP.Slot, f: nat) returns (page: nat)
    requires PP.MemoryOk(m) && PP.Maps(m.infos, s, f)
    ensures page in UserPages(m.infos[s.p]) && FrameOf(m.infos[s.p], page) == f
  {
    hide PP.FramesOk;
    var info := m.infos[s.p];
    assert info.used[s.t];
    var d :| 0 <= d < P.USER_DIRS && PP.Refers(info.dir, d, s.t);
    page := d * P.MAX_PAGE_ENTRY + s.i;
    assert P.DirIndex(page) == d && P.TableIndex(page) == s.i;
  }

  lemma SameSlot(m: P.Memory, s: PP.Slot, r: PP.Slot, f: nat)
    requires PP.MemoryOk(m) && PP.Maps(m.infos, s, f) && PP.Maps(m.infos, r, f)
    ensures s == r
  {
    hide PP.DirOk, PP.PagesOk;
  }

  lemma MappedFrameExists(m: P.Memory, s: PP.Slot, f: nat)
    requires PP.MemoryOk(m) && PP.Maps(m.infos, s, f)
    ensures f in PP.Owned(m, s.p)
  {
    hide PP.DirOk, PP.PagesOk;
  }

  lemma SlotIsPage(m: P.Memory, p: nat, a: nat, b: nat, s: PP.Slot)
    requires PP.MemoryOk(m) && p < |m.infos| && a < USER_PAGES && b < USER_PAGES
    requires IsSlotOf(m.infos[p], p, a, s) && IsSlotOf(m.infos[p], p, b, s)
    ensures a == b
  {
    hide PP.FramesOk, PP.PagesOk;
    assert PP.DirOk(m.infos[p]);
    assert P.DirIndex(a) == P.DirIndex(b);
  }

  lemma AsManyFramesAsPages(m: P.Memory, p: nat)
    requires PP.MemoryOk(m) && p < |m.infos|
    ensures |PP.Owned(m, p)| == |UserPages(m.infos[p])|
  {
    hide PP.MemoryOk, FrameOf;
    FramesAreBehindPages(m, p);
    var owned: set<int> := set f: int | f in PP.Owned(m, p);
    assert owned == PP.Owned(m, p);
    ImageSize(UserPages(m.infos[p]), owned, page => FrameOf(m.infos[p], page));
  }

  /** The pages of the first n processes. */
  function TotalPages(mapped: seq<set<int>>): nat {
    if mapped == [] then 0 else TotalPages(mapped[..|mapped| - 1]) + |mapped[|mapped| - 1]|
  }

  ghost predicate OwnsBelow(infos: seq<P.Info>, n: nat, f: nat) {
    exists s :: PP.Maps(infos, s, f) && s.p < n
  }

  /** The frames that the first n processes have. */
  ghost function OwnedBelow(m: P.Memory, n: nat): (r: set<nat>)
    ensures forall f :: f in r <==> 0 <= f < |m.frames| && OwnsBelow(m.infos, n, f)
  {
    set f: nat | f < |m.frames| && OwnsBelow(m.infos, n, f)
  }

  lemma {:induction false} FramesOfAll(m: P.Memory, mapped: seq<set<int>>, n: nat)
    requires PP.MemoryOk(m) && n <= |m.infos| && |mapped| == n
    requires forall p :: 0 <= p < n ==> mapped[p] == UserPages(m.infos[p])
    ensures |OwnedBelow(m, n)| == TotalPages(mapped)
  {
    hide PP.MemoryOk, UserPages, OwnedBelow, PP.Owned;
    if n == 0 {
      NobodyBelow(m);
    } else {
      FramesOfAll(m, mapped[..n - 1], n - 1);
      AsManyFramesAsPages(m, n - 1);
      OneMore(m, n - 1);
    }
  }

  lemma NobodyBelow(m: P.Memory)
    ensures OwnedBelow(m, 0) == {}
  {
  }

  lemma OneMore(m: P.Memory, n: nat)
    requires PP.MemoryOk(m)
    ensures OwnedBelow(m, n + 1) == OwnedBelow(m, n) + PP.Owned(m, n)
    ensures |OwnedBelow(m, n + 1)| == |OwnedBelow(m, n)| + |PP.Owned(m, n)|
  {
    hide PP.DirOk, PP.PagesOk;
    assert OwnedBelow(m, n) !! PP.Owned(m, n);
    assert OwnedBelow(m, n + 1) == OwnedBelow(m, n) + PP.Owned(m, n);
  }

  /** Free frames and pages of processes: together they are all the usable frames. */
  lemma FramesAreFreeOrPages(j: Machine)
    requires Joined(j)
    ensures |PP.FreeFrames(j.m.frames)| + TotalPages(j.s.mapped) == |PP.UsableFrames(j.m.frames)|
  {
    hide PP.MemoryOk, UserPages;
    PP.FramesAreConserved(j.m);
    FramesOfAll(j.m, j.s.mapped, |j.m.infos|);
    assert OwnedBelow(j.m, |j.m.infos|) == PP.MappedFrames(j.m);
  }

  // ---------------------------------------------------------------- from boot

  /** Tables as they are after boot; MemoryMap shows that the frames of a memory map are fit. */
  predicate FitStart(b: Sizes, frames: seq<P.Frame>) {
    && b.procs <= b.tokens && |frames| <= P.MAX_FRAMES && (|frames| > 0 ==> !P.Usable(frames[0]))
    && forall f :: 0 <= f < |frames| && !frames[f].reserved ==> frames[f].assignCount == 0
  }

  function AtFirst(b: Sizes, frames: seq<P.Frame>, tables: nat): Machine {
    Machine(KernelState.Boot(b.procs, b.listeners, b.tokens, b.bindings, b.started),
            P.Memory(frames, seq(b.procs, p => P.EmptyInfo(tables))))
  }

  lemma SoundAtFirst(b: Sizes, frames: seq<P.Frame>, tables: nat)
    requires FitStart(b, frames)
    ensures Sound(AtFirst(b, frames, tables))
  {
    hide Inv, PP.MemoryOk, P.EmptyInfo, P.Translate, UserPages;
    BootIsSafe(b.procs, b.listeners, b.tokens, b.bindings, b.started);
    PT.InitialMemoryIsOk(frames, b.procs, tables);
    NoPagesAtFirst(tables);
  }

  lemma NoPagesAtFirst(tables: nat)
    ensures UserPages(P.EmptyInfo(tables)) == {}
  {
    hide P.EmptyInfo, P.Translate;
    forall page: nat | page < USER_PAGES
      ensures P.Translate(P.EmptyInfo(tables), page).None?
    {
      PT.EmptyInfoTranslates(tables, page);
    }
  }

  /**
    * Whatever programs are started and end, whatever they ask for and give back, and whatever interrupts come between: the
    * pages that the kernel notes for a process are its translations, each has a frame of its own, and no frame is lost.
    * Paging never halts the machine but for a page that the caller does not have.
    */
  lemma NoFrameIsLost(b: Sizes, frames: seq<P.Frame>, tables: nat, acts: seq<Act>)
    requires FitStart(b, frames)
    ensures match TakeAll(AtFirst(b, frames, tables), acts)
            case Ok(j) => Sound(j) && |PP.FreeFrames(j.m.frames)| + TotalPages(j.s.mapped) == |PP.UsableFrames(frames)|
            case Halt(why) => Excused(why)
  {
    hide Inv, Joined, TakeAll, Excused, FitStart, KernelState.Boot, P.EmptyInfo, PP.SameHardware, PP.UsableFrames, PP.FreeFrames;
    SoundAtFirst(b, frames, tables);
    TakeAllKeeps(AtFirst(b, frames, tables), acts);
    var r := TakeAll(AtFirst(b, frames, tables), acts);
    if r.Ok? {
      FramesAreFreeOrPages(r.value);
      PT.SameHardwareSameUsable(frames, r.value.m.frames);
    }
  }

  lemma SomebodyOwns(m: P.Memory, f: nat)
    requires PP.MemoryOk(m) && f in PP.MappedFrames(m)
    ensures exists p :: 0 <= p < |m.infos| && f in PP.Owned(m, p)
  {
    hide PP.MemoryOk;
    var s :| PP.Maps(m.infos, s, f);
    MappedFrameExists(m, s, f);
  }

  /** A process that is gone has no frame left; when all are gone every usable frame is free. */
  lemma TheDeadHaveNoFrames(b: Sizes, frames: seq<P.Frame>, tables: nat, acts: seq<Act>, j: Machine)
    requires FitStart(b, frames) && TakeAll(AtFirst(b, frames, tables), acts) == Ok(j)
    ensures |j.s.procs| == |j.m.infos|
    ensures forall p :: 0 <= p < |j.s.procs| && j.s.procs[p].state.Empty? ==> PP.Owned(j.m, p) == {}
    ensures (forall p :: 0 <= p < |j.s.procs| ==> j.s.procs[p].state.Empty?) ==>
      PP.FreeFrames(j.m.frames) == PP.UsableFrames(j.m.frames)
  {
    hide Inv, PP.MemoryOk, UserPages, FitStart, TakeAll, AtFirst, PP.Owned, PP.FreeFrames, PP.UsableFrames, PP.MappedFrames;
    NoFrameIsLost(b, frames, tables, acts);
    SizesMatch(j.s);
    forall p | 0 <= p < |j.s.procs| && j.s.procs[p].state.Empty?
      ensures j.s.mapped[p] == {} && PP.Owned(j.m, p) == {}
    {
      DeadSlotIsClean(j.s, p);
      AsManyFramesAsPages(j.m, p);
    }
    if forall p :: 0 <= p < |j.s.procs| ==> j.s.procs[p].state.Empty? {
      PP.FramesAreConserved(j.m);
      forall f | f in PP.MappedFrames(j.m)
        ensures exists p :: 0 <= p < |j.m.infos| && f in PP.Owned(j.m, p)
      {
        SomebodyOwns(j.m, f);
      }
      assert PP.MappedFrames(j.m) == {};
    }
  }

  /** The kernel's part of a run is a run of the kernel, so all that holds of those holds here. */
  lemma KernelTakesPart(j: Machine, act: Act) returns (a: Action)
    requires CanTake(j, act) && Take(j, act).Ok?
    ensures Enabled(j.s, a) && Step(j.s, a) == Ok(Take(j, act).value.s)
  {
    hide Step, P.Gimme, P.Cleanup, P.ReleasePage, LoadFor, UserPages;
    match act
    case Ordinary(b) => a := b;
    case Boot(x) => a := Startup(Load(j, x).value.1);
    case Serve(x) => a := RunHead(if j.s.todo[0].Start? then Load(j, x).value.1 else NotLoaded);
    case Ask(addr, count) =>
      if addr % P.PAGE_BYTES != 0 {
        a := Call(CallMemPlz({}));
      } else {
        var m1 := P.Gimme(j.m, j.s.current, addr, count * P.PAGE_BYTES % WORD).value.0;
        a := Call(CallMemPlz(if j.s.current < |m1.infos| then UserPages(m1.infos[j.s.current]) else {}));
      }
    case Give(addr) => a := Call(CallMemThx(if addr % P.PAGE_BYTES != 0 then 0 else addr / P.PAGE_BYTES));
  }

  lemma {:induction false} ProjectedRun(j: Machine, acts: seq<Act>) returns (run: seq<Action>)
    requires TakeAll(j, acts).Ok?
    ensures Execute(j.s, run) == Ok(TakeAll(j, acts).value.s)
    decreases |acts|
  {
    hide Take, CanTake, Step, Enabled;
    if acts == [] {
      run := [];
    } else if !CanTake(j, acts[0]) {
      run := ProjectedRun(j, acts[1..]);
    } else {
      var a := KernelTakesPart(j, acts[0]);
      var rest := ProjectedRun(Take(j, acts[0]).value, acts[1..]);
      run := [a] + rest;
      assert run[1..] == rest;
    }
  }
}
