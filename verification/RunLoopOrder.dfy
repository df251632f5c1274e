/** What passes through a run loop: everything once, in the order the slots were reserved. */
module RunLoopOrder {
  import opened RunLoopSpec

  /** Slots are numbered from the first reservation on; `Give` may name any slot that is still waiting. */
  datatype Op<T> = Take | Give(slot: nat, item: T, size: nat) | Item | Data

  /** The run loop with what went in and what came out; `done` slots have left it. */
  datatype Trace<T> = Trace(f: Fifo<T>, done: nat, given: map<nat, (T, nat)>, items: seq<T>, data: seq<(nat, T)>)

  function Next<T>(t: Trace<T>, op: Op<T>): Trace<T> {
    match op
    case Take => if IsFull(t.f) then t else t.(f := Reserve(t.f))
    case Give(slot, item, size) =>
      if t.done <= slot < t.done + |t.f| && t.f[slot - t.done].Reserved? then
        t.(f := Fill(t.f, slot - t.done, item, size), given := t.given[slot := (item, size)])
      else t
    case Item =>
      var (r, f) := FetchItem(t.f);
      if r.Fetched? then t.(f := f, done := t.done + |t.f| - |f|, items := t.items + [t.f[0].item]) else t
    case Data =>
      var (r, f) := FetchData(t.f);
      if r.Fetched? then t.(f := f, done := t.done + |t.f| - |f|, data := t.data + [(t.done, t.f[0].item)]) else t
  }

  function Run<T>(ops: seq<Op<T>>): Trace<T> {
    if ops == [] then Trace([], 0, map[], [], [])
    else Next(Run(ops[..|ops| - 1]), ops[|ops| - 1])
  }

  /** How many items have come out: those of the slots that left, and perhaps the oldest one's. */
  function Handed<T>(t: Trace<T>): nat {
    t.done + if t.f != [] && t.f[0].Filled? && t.f[0].handled then 1 else 0
  }

  /** The number of the slots among the first n that carry data. */
  function WithData<T>(given: map<nat, (T, nat)>, n: nat): nat {
    if n == 0 then 0
    else WithData(given, n - 1) + if n - 1 in given && given[n - 1].1 != 0 then 1 else 0
  }

  ghost predicate SlotsOk<T>(f: Fifo<T>, done: nat, given: map<nat, (T, nat)>) {
    && |f| <= DISPATCH_QUEUE_SIZE
    && (forall k :: 0 <= k < |f| ==> EntryOk(f[k], k, done + k, given))
    && (forall slot :: 0 <= slot < done ==> slot in given)
    && (forall slot :: slot in given ==> slot < done + |f|)
  }

  /** An entry is what was given for its slot; only the oldest may have been collected in part. */
  ghost predicate EntryOk<T>(e: Entry<T>, k: nat, slot: nat, given: map<nat, (T, nat)>) {
    && (e.Filled? <==> slot in given)
    && (e.Filled? ==>
          && given[slot] == (e.item, e.size)
          && (e.handled ==> k == 0 && !e.dataHandled)
          && (e.dataHandled <==> e.size == 0))
  }

  /** The items are those of the first slots, each once and in order. */
  ghost predicate ItemsOk<T>(t: Trace<T>) {
    && |t.items| == Handed(t)
    && forall slot :: 0 <= slot < |t.items| ==> slot in t.given && t.items[slot] == t.given[slot].0
  }

  /** The i-th data is that of the i-th slot with some. */
  ghost predicate DataOk<T>(t: Trace<T>) {
    && |t.data| == WithData(t.given, t.done)
    && forall i :: 0 <= i < |t.data| ==>
         && t.data[i].0 < t.done && t.data[i].0 in t.given
         && WithData(t.given, t.data[i].0) == i
         && t.given[t.data[i].0].0 == t.data[i].1 && t.given[t.data[i].0].1 != 0
  }

  ghost predicate InOrder<T>(t: Trace<T>) {
    SlotsOk(t.f, t.done, t.given) && ItemsOk(t) && DataOk(t)
  }

  lemma WithDataIsLocal<T>(a: map<nat, (T, nat)>, b: map<nat, (T, nat)>, n: nat)
    requires forall slot :: 0 <= slot < n ==> slot in a && slot in b && a[slot] == b[slot]
    ensures WithData(a, n) == WithData(b, n)
  {
  }

  lemma DropKeepsSlots<T>(f: Fifo<T>, done: nat, given: map<nat, (T, nat)>)
    requires SlotsOk(f, done, given) && f != [] && f[0].Filled?
    ensures SlotsOk(f[1..], done + 1, given)
  {
    var g := f[1..];
    forall k | 0 <= k < |g|
      ensures EntryOk(g[k], k, done + 1 + k, given)
    {
      assert EntryOk(f[k + 1], k + 1, done + (k + 1), given);
    }
  }

  /** The oldest slot may be marked, and leaves when both marks are set. */
  lemma FinishKeepsSlots<T>(f: Fifo<T>, done: nat, given: map<nat, (T, nat)>, e: Entry<T>)
    requires SlotsOk(f, done, given) && f != [] && f[0].Filled? && e.Filled?
    requires (e.item, e.size) == (f[0].item, f[0].size)
    requires !(e.handled && e.dataHandled) ==> (e.dataHandled <==> e.size == 0)
    ensures var g := Finish(f[0 := e]); SlotsOk(g, done + |f| - |g|, given)
  {
    if e.handled && e.dataHandled {
      DropKeepsSlots(f, done, given);
      assert f[0 := e][1..] == f[1..];
    } else {
      var g := f[0 := e];
      forall k | 0 <= k < |g|
        ensures EntryOk(g[k], k, done + k, given)
      {
        assert EntryOk(f[k], k, done + k, given);
      }
    }
  }

  lemma NextKeepsSlots<T>(t: Trace<T>, op: Op<T>)
    requires SlotsOk(t.f, t.done, t.given)
    ensures var t' := Next(t, op); SlotsOk(t'.f, t'.done, t'.given)
  {
    hide SlotsOk;
    match op
    case Take => TakeKeepsSlots(t);
    case Give(slot, item, size) => GiveKeepsSlots(t, slot, item, size);
    case Item =>
      if FetchItem(t.f).0.Fetched? {
        OldestIsUnread(t);
        FinishKeepsSlots(t.f, t.done, t.given, t.f[0].(handled := true));
      }
    case Data =>
      if FetchData(t.f).0.Fetched? {
        FinishKeepsSlots(t.f, t.done, t.given, t.f[0].(dataHandled := true));
      }
  }

  lemma OldestIsUnread<T>(t: Trace<T>)
    requires SlotsOk(t.f, t.done, t.given) && t.f != [] && t.f[0].Filled?
    ensures t.f[0].dataHandled <==> t.f[0].size == 0
  {
  }

  lemma TakeKeepsSlots<T>(t: Trace<T>)
    requires SlotsOk(t.f, t.done, t.given)
    ensures var t' := Next(t, Take); SlotsOk(t'.f, t'.done, t'.given)
  {
  }

  lemma GiveKeepsSlots<T>(t: Trace<T>, slot: nat, item: T, size: nat)
    requires SlotsOk(t.f, t.done, t.given)
    ensures var t' := Next(t, Give(slot, item, size)); SlotsOk(t'.f, t'.done, t'.given)
  {
  }

  lemma NextKeepsItems<T>(t: Trace<T>, op: Op<T>)
    requires SlotsOk(t.f, t.done, t.given) && ItemsOk(t)
    ensures ItemsOk(Next(t, op))
  {
  }

  lemma NextKeepsData<T>(t: Trace<T>, op: Op<T>)
    requires SlotsOk(t.f, t.done, t.given) && DataOk(t)
    ensures DataOk(Next(t, op))
  {
    var t' := Next(t, op);
    if op.Give? && t' != t {
      WithDataIsLocal(t.given, t'.given, t.done);
      forall i | 0 <= i < |t.data|
        ensures WithData(t'.given, t.data[i].0) == i
      {
        WithDataIsLocal(t.given, t'.given, t.data[i].0);
      }
    }
  }

  lemma NextKeepsOrder<T>(t: Trace<T>, op: Op<T>)
    requires InOrder(t)
    ensures InOrder(Next(t, op))
  {
    hide SlotsOk, ItemsOk, DataOk, Next;
    NextKeepsSlots(t, op);
    NextKeepsItems(t, op);
    NextKeepsData(t, op);
  }

  /**
    * After any operations: the items that came out are those of the first slots, in reservation order and each once,
    * whatever the order they were given in; and the data that came out is that of every slot that left with some.
    */
  lemma {:induction false} ItemsComeOutInOrder<T>(ops: seq<Op<T>>)
    ensures InOrder(Run(ops))
  {
    if ops != [] {
      ItemsComeOutInOrder(ops[..|ops| - 1]);
      NextKeepsOrder(Run(ops[..|ops| - 1]), ops[|ops| - 1]);
    }
  }
}
