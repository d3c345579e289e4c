/**
  Busy-wait delays expressed as the number of CPU cycles they request.

  The cycles are computed for an assumed 100 MHz clock (a 10 ns period).
  The conversion from microseconds to nanoseconds happens in the hardware
  abstraction layer on 32-bit values; its overflow is not modelled, so
  every function here requires that `us * 1000` fits in 32 bits.
 */
module Delay {
  import opened Types

  /** Clock period assumed by the delays, in nanoseconds. */
  const PeriodNs: u32 := 10

  datatype Result<T, E> = Ok(value: T) | Err(error: E)

  /** Microseconds to cycles of the assumed 100 MHz clock. */
  function UsToCycle(us: u32): (cycles: u32)
    requires us as int * 1000 < 0x1_0000_0000
    ensures cycles as int == us as int * 100
  {
    var delayNs := us * 1000;
    delayNs / PeriodNs
  }

  /** A longer requested delay never asks for fewer cycles. */
  lemma UsToCycleMonotone(a: u32, b: u32)
    requires a <= b && b as int * 1000 < 0x1_0000_0000
    ensures UsToCycle(a) <= UsToCycle(b)
  {
  }

  /** The cycle count a microsecond delay hands to the cycle-counting busy loop. */
  function CycleDelayUs(us: u32): (cycles: u32)
    requires us as int * 1000 < 0x1_0000_0000
    ensures cycles as int * PeriodNs as int == us as int * 1000
  {
    UsToCycle(us)
  }

  /** A millisecond delay is the microsecond delay of `ms * 1000`. */
  function CycleDelayMs(ms: u32): (cycles: u32)
    requires ms as int * 1_000_000 < 0x1_0000_0000
    ensures cycles as int * PeriodNs as int == ms as int * 1_000_000
    ensures cycles as int == ms as int * 100_000
  {
    CycleDelayUs(ms * 1000)
  }

  /** The blocking millisecond delay widens its 16-bit argument and forwards it. */
  function DelayMs(ms: u16): (cycles: u32)
    requires ms as int * 1_000_000 < 0x1_0000_0000
    ensures cycles as int == ms as int * 100_000
  {
    CycleDelayMs(ms as u32)
  }

  /** The blocking microsecond delay always succeeds, after requesting `us * 100` cycles. */
  function DelayUs(us: u32): (r: (u32, Result<(), ()>))
    requires us as int * 1000 < 0x1_0000_0000
    ensures r.1 == Ok(())
    ensures r.0 as int == us as int * 100
  {
    (CycleDelayUs(us), Ok(()))
  }
}
