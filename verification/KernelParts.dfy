/** The queue and the run loops in the kernel's tables are the chain of TaskQueue and the rings of RunLoopRing. */
module KernelParts {
  import opened Outcomes
  import opened RunLoopSpec
  import opened KernelState
  import opened KernelFairness
  import opened Words
  import TaskQueue
  import RunLoopRing

  // ---------------------------------------------------------------- the queue

  /** The chain of queued tasks, the one being run in front, is the queue of the kernel. */
  ghost predicate HoldsQueue(q: TaskQueue.Queue<Task>, s: State)
    reads q, q.queue
  {
    q.Valid() && q.queue.Length == MAX_QUEUE_LENGTH && q.running == s.queueRunning && q.Contents() == Queued(s)
  }

  /** Queueing a task on the chain is what Dispatch describes. */
  method QueueTask(q: TaskQueue.Queue<Task>, t: Task, ghost s: State) returns (oops: Option<Oops>)
    requires HoldsQueue(q, s)
    modifies q, q.queue
    ensures match Dispatch(s, t)
            case Ok(s') => oops.None? && HoldsQueue(q, s')
            case Halt(why) => oops == Some(why)
  {
    DispatchAppends(s, t);
    oops := q.Dispatch(t);
  }

  /** The entry that the chain starts with is the task that is run next; running it leaves it in its slot. */
  lemma HeadIsRunInPlace(q: TaskQueue.Queue<Task>, s: State)
    requires HoldsQueue(q, s) && s.head.None? && s.todo != []
    ensures q.current.Some? && q.current.value < q.queue.Length && q.queue[q.current.value].func == Some(s.todo[0])
    ensures HoldsQueue(q, Retire(s, s.todo[0]))
  {
    hide Queued, Retire, TaskQueue.Well, TaskQueue.Tasks;
    QueuedStays(s);
    q.HeadHoldsFirst();
  }

  lemma QueuedStays(s: State)
    requires s.head.None? && s.todo != []
    ensures Queued(s) == s.todo && Queued(Retire(s, s.todo[0])) == s.todo
    ensures Retire(s, s.todo[0]).queueRunning == s.queueRunning
  {
  }

  /** Taking the entry off the chain is the step that pops it. */
  method PopTask(q: TaskQueue.Queue<Task>, ghost s: State)
    requires HoldsQueue(q, s) && s.head.Some?
    modifies q, q.queue
    ensures HoldsQueue(q, s.(head := None))
  {
    PopDropsHead(s);
    q.Retire(q.current.value);
  }

  // ---------------------------------------------------------------- the run loops

  /** The entries without their bytes, of which the tables keep only how many there are. */
  ghost function Stripped(f: Fifo<RunLoopRing.Packet<Message>>): (g: Fifo<Message>)
    ensures |g| == |f|
  {
    seq(|f|, i requires 0 <= i < |f| => StrippedEntry(f[i]))
  }

  ghost function StrippedEntry(e: Entry<RunLoopRing.Packet<Message>>): Entry<Message> {
    match e
    case Reserved => Reserved
    case Filled(p, size, handled, dataHandled) => Filled(p.item, size, handled, dataHandled)
  }

  ghost predicate HoldsLoop(r: RunLoopRing.RunLoop<Message>, f: Fifo<Message>)
    reads r, r.queue
  {
    r.Valid() && Stripped(r.entries) == f
  }

  lemma ReserveStripped(f: Fifo<RunLoopRing.Packet<Message>>)
    ensures Reserve(Stripped(f)) == Stripped(Reserve(f))
  {
  }

  lemma FillStripped(f: Fifo<RunLoopRing.Packet<Message>>, k: nat, p: RunLoopRing.Packet<Message>, size: nat)
    requires k < |f|
    ensures Fill(Stripped(f), k, p.item, size) == Stripped(Fill(f, k, p, size))
  {
  }

  lemma FetchStripped(f: Fifo<RunLoopRing.Packet<Message>>)
    ensures FetchItem(Stripped(f)) == (FetchItem(f).0, Stripped(FetchItem(f).1))
    ensures FetchData(Stripped(f)) == (FetchData(f).0, Stripped(FetchData(f).1))
  {
    if f != [] && f[0].Filled? {
      var item, data := f[0].(handled := true), f[0].(dataHandled := true);
      assert Stripped(f[0 := item]) == Stripped(f)[0 := StrippedEntry(item)];
      assert Stripped(f[0 := data]) == Stripped(f)[0 := StrippedEntry(data)];
      assert Stripped(f[0 := item][1..]) == Stripped(f[0 := item])[1..];
      assert Stripped(f[0 := data][1..]) == Stripped(f[0 := data])[1..];
    }
  }

  /** What a delivery does to the run loop: a slot is reserved, then filled with the message and its bytes. */
  method Put(r: RunLoopRing.RunLoop<Message>, m: Message, data: seq<byte>, ghost f: Fifo<Message>)
    returns (full: bool, oops: Option<Oops>)
    requires HoldsLoop(r, f) && data != []
    modifies r, r.queue
    ensures full <==> IsFull(f)
    ensures full ==> oops.None? && HoldsLoop(r, f)
    ensures !full && |data| > DISPATCH_MAX_DATA_SIZE_BYTES ==> oops == Some(PayloadTooLarge)
    ensures !full && |data| <= DISPATCH_MAX_DATA_SIZE_BYTES ==>
      oops.None? && HoldsLoop(r, Fill(Reserve(f), |f|, m, |data|))
  {
    var token := r.Reserve();
    if token.None? {
      return true, None;
    }
    full := false;
    if |data| > DISPATCH_MAX_DATA_SIZE_BYTES {
      oops := r.Dispatch(token.value, RunLoopRing.Dispatched(m, |data|, true, None, true));
      return;
    }
    ReserveStripped(old(r.entries));
    var d := RunLoopRing.Dispatched(m, |data|, true, Some(data), true);
    FillStripped(r.entries, |f|, RunLoopRing.Packet(m, RunLoopRing.Payload(d)), |data|);
    oops := r.Dispatch(token.value, d);
  }

  /** What reading the oldest message does to it. */
  method TakeItem(r: RunLoopRing.RunLoop<Message>, ghost f: Fifo<Message>) returns (fetch: Fetch, item: Option<Message>)
    requires HoldsLoop(r, f)
    modifies r, r.queue
    ensures fetch == FetchItem(f).0 && HoldsLoop(r, FetchItem(f).1)
    ensures item == if fetch.Fetched? then Some(f[0].item) else None
  {
    FetchStripped(r.entries);
    fetch, item := r.GetPendingItem();
  }

  /** What reading its data does to it; the bytes are as many as the tables say. */
  method TakeData(r: RunLoopRing.RunLoop<Message>, ghost f: Fifo<Message>) returns (fetch: Fetch, data: seq<byte>)
    requires HoldsLoop(r, f)
    modifies r, r.queue
    ensures fetch == FetchData(f).0 && HoldsLoop(r, FetchData(f).1)
    ensures fetch.Fetched? ==> |data| == f[0].size
  {
    FetchStripped(r.entries);
    SizesMatch(r);
    fetch, data := r.GetPendingItemData();
  }

  lemma SizesMatch(r: RunLoopRing.RunLoop<Message>)
    requires r.Valid()
    ensures r.entries != [] && r.entries[0].Filled? ==> |r.entries[0].item.data| == r.entries[0].size
  {
    var index := (r.finishedIndex + 1) % RunLoopRing.N;
    assert RunLoopRing.Position(r.finishedIndex, index) == 0;
    if r.entries != [] {
      assert RunLoopRing.Holds(r.queue[index], r.entries[0]);
    }
  }
}
