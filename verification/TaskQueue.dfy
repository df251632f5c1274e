/** The deferred-task queue: entries linked inside a fixed array of slots. */
module TaskQueue {
  import opened Counting
  import opened Outcomes

  ghost predicate Distinct(chain: seq<nat>) {
    forall j, k :: 0 <= j < k < |chain| ==> chain[j] != chain[k]
  }

  ghost function Elements(chain: seq<nat>): (s: set<int>)
    ensures forall i :: i in s <==> i in chain
  {
    set i | i in chain
  }

  lemma {:induction false} DistinctCount(chain: seq<nat>)
    requires Distinct(chain)
    ensures |Elements(chain)| == |chain|
  {
    if chain != [] {
      DistinctCount(chain[1..]);
      assert chain[0] !in chain[1..];
      assert Elements(chain) == {chain[0]} + Elements(chain[1..]);
    }
  }

  /** Distinct slots fill the array exactly when there are as many as it has. */
  lemma FullMeansAll(chain: seq<nat>, n: nat)
    requires Distinct(chain) && forall i :: i in chain ==> i < n
    ensures |chain| <= n
    ensures |chain| == n <==> forall i :: 0 <= i < n ==> i in chain
  {
    DistinctCount(chain);
    SubsetSize(Elements(chain), Below(n));
    if forall i :: 0 <= i < n ==> i in chain {
      assert Elements(chain) == Below(n);
    }
  }

  /** A slot; `func` is None while its type is DFE_NONE. */
  datatype Entry<T> = Entry(reserved: bool, func: Option<T>, next: Option<nat>)

  ghost predicate InTable<T>(queue: seq<Entry<T>>, chain: seq<nat>) {
    forall k :: 0 <= k < |chain| ==> chain[k] < |queue|
  }

  /** Following `next` along the chain ends after its last slot. */
  ghost predicate Linked<T>(queue: seq<Entry<T>>, chain: seq<nat>)
    requires InTable(queue, chain)
  {
    && (forall k :: 0 <= k < |chain| - 1 ==> queue[chain[k]].next == Some(chain[k + 1]))
    && (chain != [] ==> queue[chain[|chain| - 1]].next == None)
  }

  /** The reserved slots are those of the chain, and they hold tasks. */
  ghost predicate Marked<T>(queue: seq<Entry<T>>, chain: seq<nat>) {
    forall i :: 0 <= i < |queue| ==> (queue[i].reserved <==> i in chain) && (queue[i].reserved ==> queue[i].func.Some?)
  }

  ghost predicate Well<T>(queue: seq<Entry<T>>, chain: seq<nat>) {
    InTable(queue, chain) && Distinct(chain) && Linked(queue, chain) && Marked(queue, chain)
  }

  /** The tasks along the chain. */
  ghost function Tasks<T>(queue: seq<Entry<T>>, chain: seq<nat>): (tasks: seq<T>)
    requires Well(queue, chain)
    ensures |tasks| == |chain| && forall k :: 0 <= k < |chain| ==> Some(tasks[k]) == queue[chain[k]].func
  {
    assert forall k :: 0 <= k < |chain| ==> queue[chain[k]].reserved;
    seq(|chain|, k requires 0 <= k < |chain| => queue[chain[k]].func.value)
  }

  lemma LinkAt<T>(queue: seq<Entry<T>>, chain: seq<nat>, k: nat)
    requires InTable(queue, chain) && Linked(queue, chain) && k < |chain|
    ensures queue[chain[k]].next == if k + 1 < |chain| then Some(chain[k + 1]) else None
  {
  }

  /** The table with a new last entry in slot i. */
  ghost function Appended<T>(queue: seq<Entry<T>>, chain: seq<nat>, i: nat, t: T): seq<Entry<T>>
    requires InTable(queue, chain) && i < |queue|
  {
    var q := queue[i := Entry(true, Some(t), None)];
    if chain == [] then q else var last := chain[|chain| - 1]; q[last := q[last].(next := Some(i))]
  }

  lemma AppendKeepsLinks<T>(queue: seq<Entry<T>>, chain: seq<nat>, i: nat, t: T)
    requires Well(queue, chain) && i !in chain && i < |queue|
    ensures Linked(queue[i := Entry(true, Some(t), None)], chain)
    ensures Linked(Appended(queue, chain, i, t), chain + [i])
  {
  }

  lemma AppendKeepsWell<T>(queue: seq<Entry<T>>, chain: seq<nat>, i: nat, t: T)
    requires Well(queue, chain) && i !in chain && i < |queue|
    ensures var q := Appended(queue, chain, i, t); Well(q, chain + [i]) && Tasks(q, chain + [i]) == Tasks(queue, chain) + [t]
  {
    AppendKeepsLinks(queue, chain, i, t);
  }

  /** The table without its first entry. */
  ghost function Removed<T>(queue: seq<Entry<T>>, i: nat): seq<Entry<T>>
    requires i < |queue|
  {
    queue[i := Entry(false, None, None)]
  }

  lemma RestOfChain(chain: seq<nat>)
    requires Distinct(chain) && chain != []
    ensures Distinct(chain[1..])
    ensures forall i :: i in chain[1..] <==> i in chain && i != chain[0]
  {
    assert chain == [chain[0]] + chain[1..];
  }

  lemma RemoveKeepsLinks<T>(queue: seq<Entry<T>>, chain: seq<nat>)
    requires InTable(queue, chain) && Distinct(chain) && Linked(queue, chain) && chain != []
    ensures var q := Removed(queue, chain[0]); InTable(q, chain[1..]) && Linked(q, chain[1..])
  {
    var rest := chain[1..];
    assert forall k :: 0 <= k < |rest| ==> rest[k] == chain[k + 1];
  }

  lemma RemoveKeepsWell<T>(queue: seq<Entry<T>>, chain: seq<nat>)
    requires Well(queue, chain) && chain != []
    ensures var q := Removed(queue, chain[0]); Well(q, chain[1..]) && Tasks(q, chain[1..]) == Tasks(queue, chain)[1..]
  {
    hide Linked;
    RestOfChain(chain);
    RemoveKeepsLinks(queue, chain);
    var rest := chain[1..];
    assert forall k :: 0 <= k < |rest| ==> rest[k] == chain[k + 1];
  }

  class Queue<T> {
    const queue: array<Entry<T>>
    var current: Option<nat>
    var running: bool
    ghost var chain: seq<nat>

    /** Following `next` from `current` visits the reserved slots, each once, and ends. */
    ghost predicate Valid()
      reads this, queue
    {
      Well(queue[..], chain) && current == if chain == [] then None else Some(chain[0])
    }

    /** The tasks in the order they will run. */
    ghost function Contents(): seq<T>
      reads this, queue
      requires Valid()
    {
      Tasks(queue[..], chain)
    }

    /** The list starts with the first of them. */
    lemma HeadHoldsFirst()
      requires Valid() && Contents() != []
      ensures current.Some? && current.value < queue.Length && queue[current.value].func == Some(Contents()[0])
    {
      hide Linked, Distinct, Marked;
    }

    constructor (capacity: nat)
      ensures Valid() && Contents() == [] && !running && queue.Length == capacity
      ensures fresh(queue)
    {
      queue := new Entry<T>[capacity](_ => Entry(false, None, None));
      current, running, chain := None, false, [];
    }

    method FreeSlot() returns (i: nat)
      requires Valid()
      ensures i <= queue.Length && |chain| <= queue.Length
      ensures i < queue.Length ==> i !in chain
      ensures i == queue.Length <==> |Contents()| == queue.Length
    {
      i := 0;
      while i < queue.Length
        invariant 0 <= i <= queue.Length
        invariant forall k :: 0 <= k < i ==> queue[k].reserved
      {
        if !queue[i].reserved {
          break;
        }
        i := i + 1;
      }
      FullMeansAll(chain, queue.Length);
    }

    /** The entry at the end of the list. */
    method Last(first: nat) returns (last: nat)
      requires InTable(queue[..], chain) && Linked(queue[..], chain) && chain != [] && first == chain[0]
      ensures last == chain[|chain| - 1]
    {
      last := first;
      ghost var k := 0;
      LinkAt(queue[..], chain, 0);
      while queue[last].next.Some?
        invariant 0 <= k < |chain| && last == chain[k]
        invariant queue[last].next == if k + 1 < |chain| then Some(chain[k + 1]) else None
        decreases |chain| - k
      {
        LinkAt(queue[..], chain, k + 1);
        last := queue[last].next.value;
        k := k + 1;
      }
    }

    method Dispatch(t: T) returns (oops: Option<Oops>)
      requires Valid()
      modifies this`current, this`chain, queue
      ensures !running ==> oops == Some(QueueNotRunning)
      ensures running ==> oops == if |old(Contents())| >= queue.Length then Some(QueueFull) else None
      ensures oops.None? ==>
        && Valid() && Contents() == old(Contents()) + [t]
        && (old(current).Some? ==> current == old(current))
    {
      hide Linked, Distinct, Marked;
      if !running {
        return Some(QueueNotRunning);
      }
      var i := FreeSlot();
      if i >= queue.Length {
        return Some(QueueFull);
      }
      AppendKeepsLinks(queue[..], chain, i, t);
      AppendKeepsWell(queue[..], chain, i, t);
      queue[i] := Entry(true, Some(t), None);
      if current.Some? {
        var last := Last(current.value);
        queue[last] := queue[last].(next := Some(i));
      } else {
        current := Some(i);
      }
      assert queue[..] == Appended(old(queue[..]), chain, i, t);
      chain := chain + [i];
      return None;
    }

    /** What follows the run of the entry at the head. */
    method Retire(executed: nat)
      requires Valid() && current == Some(executed)
      modifies this`current, this`chain, queue
      ensures Valid() && Contents() == old(Contents())[1..]
    {
      RemoveKeepsWell(queue[..], chain);
      LinkAt(queue[..], chain, 0);
      current := queue[executed].next;
      queue[executed] := Entry(false, None, None);
      chain := chain[1..];
      assert queue[..] == Removed(old(queue[..]), executed);
    }

    method DispatchAll(tasks: seq<T>) returns (oops: Option<Oops>)
      requires Valid() && running
      modifies this`current, this`chain, queue
      ensures oops.None? <==> |old(Contents())| + |tasks| <= queue.Length || tasks == []
      ensures oops.None? ==>
        && Valid() && Contents() == old(Contents()) + tasks
        && (old(current).Some? ==> current == old(current))
    {
      hide Well, Tasks;
      ghost var was := Contents();
      for i := 0 to |tasks|
        invariant Valid() && Contents() == was + tasks[..i]
        invariant i > 0 ==> |was| + i <= queue.Length
        invariant old(current).Some? ==> current == old(current)
      {
        oops := Dispatch(tasks[i]);
        if oops.Some? {
          return;
        }
        assert was + tasks[..i] + [tasks[i]] == was + tasks[..i + 1];
      }
      assert tasks[..|tasks|] == tasks;
      oops := None;
    }

    /** One round: the head is run, tasks arrive meanwhile, and the entry removed is the one that was run. */
    method Round(meanwhile: seq<T>) returns (executed: Option<T>, oops: Option<Oops>)
      requires Valid() && running
      modifies this`current, this`chain, queue
      ensures executed.None? <==> old(Contents()) == []
      ensures executed.None? ==> oops.None? && Valid() && Contents() == []
      ensures executed.Some? ==>
        && executed.value == old(Contents())[0]
        && (oops.None? <==> |old(Contents())| + |meanwhile| <= queue.Length || meanwhile == [])
        && (oops.None? ==> Valid() && Contents() == old(Contents())[1..] + meanwhile)
    {
      if current.None? {
        return None, None;
      }
      var enqueued := current.value;
      executed := queue[enqueued].func;
      oops := DispatchAll(meanwhile);
      if oops.None? {
        Retire(enqueued);
      }
    }
  }
}
