/** What a run loop is for its users: a bounded queue, served in the order the slots were reserved. */
module RunLoopSpec {

  const DISPATCH_QUEUE_SIZE: nat := 8
  const DISPATCH_MAX_DATA_SIZE_BYTES: nat := 7168

  /** A slot that has been handed out, before and after its contents were dispatched. */
  datatype Entry<T> =
    | Reserved
    | Filled(item: T, size: nat, handled: bool, dataHandled: bool)

  type Fifo<T> = seq<Entry<T>>

  predicate IsFull<T>(f: Fifo<T>) {
    |f| >= DISPATCH_QUEUE_SIZE
  }

  /** No item is available: the oldest slot, if there is one, is still waiting for its contents. */
  predicate IsEmpty<T>(f: Fifo<T>) {
    f == [] || f[0].Reserved?
  }

  function Reserve<T>(f: Fifo<T>): Fifo<T> {
    f + [Reserved]
  }

  function Fill<T>(f: Fifo<T>, k: nat, item: T, size: nat): Fifo<T>
    requires k < |f|
  {
    f[k := Filled(item, size, false, size == 0)]
  }

  /** Drops the oldest entry once both its item and its data were collected. */
  function Finish<T>(f: Fifo<T>): Fifo<T> {
    if f != [] && f[0].Filled? && f[0].handled && f[0].dataHandled then f[1..] else f
  }

  datatype Fetch = Fetched | Nothing | WrongState

  function FetchItem<T>(f: Fifo<T>): (Fetch, Fifo<T>) {
    if IsEmpty(f) then (Nothing, f)
    else if f[0].handled then (WrongState, f)
    else (Fetched, Finish(f[0 := f[0].(handled := true)]))
  }

  function FetchData<T>(f: Fifo<T>): (Fetch, Fifo<T>) {
    if IsEmpty(f) then (Nothing, f)
    else if !f[0].handled || f[0].dataHandled then (WrongState, f)
    else (Fetched, Finish(f[0 := f[0].(dataHandled := true)]))
  }
}
