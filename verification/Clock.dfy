/** The millisecond clock: a tick a little shorter than a millisecond, with its drift made up for. */
module Clock {

  const PIT_FREQ: nat := 1193182
  const EVENT_FREQ: nat := 1000
  const COUNTER: nat := 0x1_0000_0000

  /** What the timer chip counts down from: one tick lasts that many of its periods. */
  function Divider(): nat {
    PIT_FREQ / EVENT_FREQ
  }

  function PitDrift(): nat {
    PIT_FREQ % EVENT_FREQ
  }

  /** The drift left over after n ticks, and the ticks that went to make up for the rest. */
  function Drift(n: nat): nat {
    n * PitDrift() % PIT_FREQ
  }

  function Ignored(n: nat): nat {
    n * PitDrift() / PIT_FREQ
  }

  class Timer {
    var ticks: nat
    var ms: nat
    const pitDrift: nat
    var driftCurrent: nat
    /** Ticks since the start, and calls of the millisecond handlers. */
    ghost var elapsed: nat
    ghost var calls: nat

    ghost predicate Valid()
      reads this
    {
      && pitDrift == PitDrift()
      && ticks == elapsed % COUNTER
      && driftCurrent == Drift(elapsed)
      && calls == elapsed - Ignored(elapsed)
      && ms == calls % COUNTER
    }

    constructor ()
      ensures Valid() && elapsed == 0
    {
      ticks, ms, driftCurrent := 0, 0, 0;
      pitDrift := PIT_FREQ % EVENT_FREQ;
      elapsed, calls := 0, 0;
    }

    /** One interrupt; `handled` when the millisecond handlers are called. */
    method Tick() returns (handled: bool)
      requires Valid()
      modifies this
      ensures Valid() && elapsed == old(elapsed) + 1
      ensures calls == old(calls) + if handled then 1 else 0
    {
      hide Drift, Ignored;
      OneMoreTick(elapsed);
      NextCount(elapsed);
      NextCount(calls);
      ticks := (ticks + 1) % COUNTER;
      driftCurrent := (driftCurrent + pitDrift) % COUNTER;
      elapsed := elapsed + 1;
      if driftCurrent >= PIT_FREQ {
        driftCurrent := driftCurrent % PIT_FREQ;
        return false;
      }
      ms := (ms + 1) % COUNTER;
      calls := calls + 1;
      return true;
    }

    /** Until the counters wrap, the clock shows the elapsed time rounded up to a millisecond. */
    lemma ShowsTimeRoundedUp()
      requires Valid() && elapsed < COUNTER
      ensures ticks == elapsed
      ensures ms * PIT_FREQ - PIT_FREQ < elapsed * Divider() * 1000 <= ms * PIT_FREQ
    {
      TimeRoundedUp(elapsed);
    }
  }

  lemma NextCount(n: nat)
    ensures (n % COUNTER + 1) % COUNTER == (n + 1) % COUNTER
  {
  }

  /** One more tick is ignored exactly when the drift reaches the frequency. */
  lemma OneMoreTick(n: nat)
    ensures Drift(n) < PIT_FREQ && Ignored(n) <= n
    ensures if Drift(n) + PitDrift() >= PIT_FREQ then
              Drift(n + 1) == Drift(n) + PitDrift() - PIT_FREQ && Ignored(n + 1) == Ignored(n) + 1
            else Drift(n + 1) == Drift(n) + PitDrift() && Ignored(n + 1) == Ignored(n)
  {
  }

  /**
    * n ticks last n * Divider() periods of the chip, which makes PIT_FREQ of them in a second. The milliseconds counted
    * are those, rounded up: the error is never negative and stays below one for ever.
    */
  lemma TimeRoundedUp(n: nat)
    ensures Ignored(n) <= n
    ensures (n - Ignored(n)) * PIT_FREQ - PIT_FREQ < n * Divider() * 1000 <= (n - Ignored(n)) * PIT_FREQ
  {
    assert Divider() * 1000 == PIT_FREQ - PitDrift();
    assert n * PitDrift() == Ignored(n) * PIT_FREQ + Drift(n);
  }
}
