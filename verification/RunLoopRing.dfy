/** One process's run loop: a ring of slots with its two indices, as the kernel keeps it. */
module RunLoopRing {
  import opened Outcomes
  import opened RunLoopSpec
  import opened Words

  const N: nat := DISPATCH_QUEUE_SIZE

  /** What a dispatcher hands over; `data` is what its encoder will write, if there is a payload; `size` is announced apart. */
  datatype Dispatched<T> = Dispatched(item: T, size: nat, acceptsData: bool, data: Option<seq<byte>>, coded: bool)

  /** What the receiver sees of it. */
  datatype Packet<T> = Packet(item: T, data: seq<byte>)

  /** `item` is None while the slot holds no event; the buffer keeps its length. */
  datatype Slot<T> = Slot(reserved: bool, handled: bool, dataHandled: bool, item: Option<T>, size: nat, buffer: seq<byte>)

  function ZeroBuffer(): (b: seq<byte>)
    ensures |b| == DISPATCH_MAX_DATA_SIZE_BYTES
  {
    seq(DISPATCH_MAX_DATA_SIZE_BYTES, i => 0)
  }

  function ZeroSlot<T>(): Slot<T> {
    Slot(false, false, false, None, 0, ZeroBuffer())
  }

  /** The encoder fills the front of the buffer. */
  function Encoded(buffer: seq<byte>, data: seq<byte>): (r: seq<byte>)
    ensures |r| == |buffer|
  {
    if |data| <= |buffer| then data + buffer[|data|..] else buffer
  }

  /** x modulo the number of slots, for an x that passed the end at most once. */
  function Wrapped(x: nat): nat {
    if x < N then x else x - N
  }

  /** The slot holding the k-th outstanding entry. */
  function At(finished: nat, k: nat): nat {
    (finished + 1 + k) % N
  }

  /** Which outstanding entry a slot holds. */
  function Position(finished: nat, token: nat): nat
    requires finished < N && token < N
  {
    if token > finished then token - finished - 1 else token + N - finished - 1
  }

  lemma PositionInvertsAt(finished: nat, k: nat, token: nat)
    requires finished < N && k < N && token < N
    ensures token == At(finished, k) <==> k == Position(finished, token)
  {
  }

  /** What a slot must hold for an entry of the queue. */
  ghost predicate Holds<T>(slot: Slot<T>, e: Entry<Packet<T>>) {
    && |slot.buffer| == DISPATCH_MAX_DATA_SIZE_BYTES
    && match e
       case Reserved => slot == ZeroSlot<T>().(reserved := true)
       case Filled(p, size, handled, dataHandled) =>
         && slot.reserved && slot.handled == handled && slot.dataHandled == dataHandled
         && slot.item == Some(p.item) && slot.size == size
         && size == |p.data| <= DISPATCH_MAX_DATA_SIZE_BYTES && slot.buffer[..size] == p.data
  }

  class RunLoop<T(==)> {
    const queue: array<Slot<T>>
    var finishedIndex: nat
    var endIndex: nat
    ghost var entries: Fifo<Packet<T>>

    /** Reserved slots are the cyclic interval after `finishedIndex` up to `endIndex`; the others are zero. */
    ghost predicate Valid()
      reads this, queue
    {
      && queue.Length == N
      && finishedIndex < N
      && |entries| <= N
      && endIndex == Wrapped(finishedIndex + |entries|)
      && forall t :: 0 <= t < N ==>
          if Position(finishedIndex, t) < |entries| then Holds(queue[t], entries[Position(finishedIndex, t)])
          else queue[t] == ZeroSlot<T>()
    }

    /** The reserved slots run cyclically from the one after `finishedIndex` to `endIndex`. */
    lemma ReservedSlotsAreAnInterval(t: nat)
      requires Valid() && t < N
      ensures queue[t].reserved <==> exists k :: 0 <= k < |entries| && t == At(finishedIndex, k)
      ensures entries != [] ==> endIndex == At(finishedIndex, |entries| - 1)
    {
      var k := Position(finishedIndex, t);
      PositionInvertsAt(finishedIndex, k, t);
      if queue[t].reserved {
        assert k < |entries| && t == At(finishedIndex, k);
      } else if j :| 0 <= j < |entries| && t == At(finishedIndex, j) {
        PositionInvertsAt(finishedIndex, j, t);
      }
    }

    constructor ()
      ensures Valid() && fresh(queue) && entries == []
    {
      queue := new Slot<T>[N](_ => ZeroSlot<T>());
      finishedIndex, endIndex, entries := 0, 0, [];
    }

    method Reserve() returns (token: Option<nat>)
      requires Valid()
      modifies this, queue
      ensures Valid() && finishedIndex == old(finishedIndex)
      ensures token.None? <==> IsFull(old(entries))
      ensures token.None? ==> entries == old(entries)
      ensures token.Some? ==>
        && entries == RunLoopSpec.Reserve(old(entries))
        && token.value < N && Position(finishedIndex, token.value) == |old(entries)|
    {
      var index := (endIndex + 1) % N;
      assert index == Wrapped(endIndex + 1);
      assert |entries| < N ==> Position(finishedIndex, index) == |entries|;
      assert |entries| == N ==> Position(finishedIndex, index) == 0;
      if queue[index].reserved {
        return None;
      }
      queue[index] := queue[index].(reserved := true);
      endIndex := index;
      entries := RunLoopSpec.Reserve(entries);
      return Some(index);
    }

    /** The token may be any that is still waiting for its contents: slots are filled in any order. */
    method Dispatch(token: nat, d: Dispatched<T>) returns (oops: Option<Oops>)
      requires Valid()
      requires d.data.Some? ==> |d.data.value| <= DISPATCH_MAX_DATA_SIZE_BYTES
      modifies queue, this`entries
      ensures token >= N ==> oops == Some(RunLoopToken)
      ensures token < N && !Waiting(old(entries), Position(finishedIndex, token)) ==> oops == Some(RunLoopItemState)
      ensures token < N && Waiting(old(entries), Position(finishedIndex, token)) ==> oops == Refused(d)
      ensures oops.None? ==>
        && Valid()
        && entries == Fill(old(entries), Position(finishedIndex, token), Packet(d.item, Payload(d)), d.size)
    {
      if token >= N {
        return Some(RunLoopToken);
      }
      ghost var k := Position(finishedIndex, token);
      if queue[token].item.Some? || !queue[token].reserved {
        return Some(RunLoopItemState);
      }
      if d.size != 0 {
        oops := Refused(d);
        if oops.Some? {
          queue[token] := ZeroSlot<T>();
          return;
        }
      } else if d.data.Some? {
        queue[token] := ZeroSlot<T>();
        return Some(RunLoopPayload);
      } else {
        queue[token] := queue[token].(dataHandled := true);
      }
      queue[token] := queue[token].(item := Some(d.item), size := d.size, buffer := Encoded(queue[token].buffer, Written(d)));
      entries := Fill(entries, k, Packet(d.item, Payload(d)), d.size);
      return None;
    }

    method FinishIfNeeded()
      requires queue.Length == N && finishedIndex < N && entries != [] && entries[0].Filled?
      requires Valid()
      modifies this, queue
      ensures Valid() && entries == Finish(old(entries))
    {
      var index := (finishedIndex + 1) % N;
      assert Position(finishedIndex, index) == 0;
      if !queue[index].handled || !queue[index].dataHandled {
        return;
      }
      queue[index] := ZeroSlot<T>();
      finishedIndex := index;
      entries := entries[1..];
    }

    method GetPendingItem() returns (r: Fetch, item: Option<T>)
      requires Valid()
      modifies this, queue
      ensures Valid() && (r, entries) == FetchItem(old(entries))
      ensures item == if r.Fetched? then Some(old(entries)[0].item.item) else None
    {
      var index := (finishedIndex + 1) % N;
      assert Position(finishedIndex, index) == 0;
      if queue[index].item.None? {
        return Nothing, None;
      }
      if queue[index].handled {
        return WrongState, None;
      }
      item := queue[index].item;
      queue[index] := queue[index].(handled := true);
      entries := entries[0 := entries[0].(handled := true)];
      FinishIfNeeded();
      r := Fetched;
    }

    method GetPendingItemDataSize() returns (r: Fetch, size: nat)
      requires Valid()
      ensures r == FetchData(entries).0
      ensures r.Fetched? ==> entries != [] && entries[0].Filled? && size == |entries[0].item.data|
    {
      var index := (finishedIndex + 1) % N;
      assert Position(finishedIndex, index) == 0;
      if queue[index].item.None? {
        return Nothing, 0;
      }
      if !queue[index].handled || queue[index].dataHandled {
        return WrongState, 0;
      }
      return Fetched, queue[index].size;
    }

    method GetPendingItemData() returns (r: Fetch, data: seq<byte>)
      requires Valid()
      modifies this, queue
      ensures Valid() && (r, entries) == FetchData(old(entries))
      ensures r.Fetched? ==> data == old(entries)[0].item.data
    {
      var index := (finishedIndex + 1) % N;
      assert Position(finishedIndex, index) == 0;
      if queue[index].item.None? {
        return Nothing, [];
      }
      if !queue[index].handled || queue[index].dataHandled {
        return WrongState, [];
      }
      data := queue[index].buffer[..queue[index].size];
      queue[index] := queue[index].(dataHandled := true);
      entries := entries[0 := entries[0].(dataHandled := true)];
      FinishIfNeeded();
      r := Fetched;
    }

    method IsEmpty() returns (empty: bool)
      requires Valid()
      ensures empty == RunLoopSpec.IsEmpty(entries)
    {
      var index := (finishedIndex + 1) % N;
      assert Position(finishedIndex, index) == 0;
      empty := queue[index].item.None?;
    }

    method Cleanup()
      requires queue.Length == N
      modifies this, queue
      ensures Valid() && entries == []
    {
      for i := 0 to N
        invariant forall t :: 0 <= t < i ==> queue[t] == ZeroSlot<T>()
      {
        queue[i] := ZeroSlot<T>();
      }
      finishedIndex, endIndex, entries := 0, 0, [];
    }
  }

  /** The k-th entry has been handed out and not been filled. */
  predicate Waiting<T>(f: Fifo<Packet<T>>, k: nat) {
    k < |f| && f[k].Reserved?
  }

  function Written<T>(d: Dispatched<T>): seq<byte> {
    if d.data.Some? then d.data.value else []
  }

  /** What the receiver gets: as many bytes as the item announces, zeros where the encoder wrote fewer. */
  function Payload<T>(d: Dispatched<T>): seq<byte> {
    if d.size <= DISPATCH_MAX_DATA_SIZE_BYTES then Encoded(ZeroBuffer(), Written(d))[..d.size] else []
  }

  /** The checks on a dispatched item, in their order. */
  function Refused<T>(d: Dispatched<T>): Option<Oops> {
    if d.size != 0 then
      if d.size > DISPATCH_MAX_DATA_SIZE_BYTES then Some(PayloadTooLarge)
      else if !d.acceptsData || d.data.None? || !d.coded then Some(RunLoopPayload)
      else None
    else if d.data.Some? then Some(RunLoopPayload)
    else None
  }
}
