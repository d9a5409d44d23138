/** The per-tick sample budget: how many frames each output tick owes, by exact
    rational accumulation (`SampleClock`). */
module Cadence {
  import opened Audio

  /** The clock's rate: `num / den` frames a tick (`sample_rate * fps.den / fps.num`). */
  datatype Rate = Rate(num: nat, den: nat) {
    /** The cumulative total after `tick` ticks, `floor(tick * num / den)`. */
    function TotalAt(tick: nat): nat
      requires den > 0
    {
      tick * num / den
    }
  }

  type ClockRate = r: Rate | r.den > 0 witness Rate(0, 1)

  /** `SampleClock::new`: a zero frame-rate numerator is clamped to a divisor of one;
      the sign of either part of the cadence is dropped. */
  function RateOf(sampleRate: nat, fpsNum: int, fpsDen: int): (r: ClockRate) {
    Rate(sampleRate * Magnitude(fpsDen), Max(Magnitude(fpsNum), 1))
  }

  function Magnitude(x: int): nat {
    if x < 0 then -x else x
  }

  /** What one advance to `target` owes a clock standing at `ticks`. */
  function Owed(rate: ClockRate, ticks: nat, target: nat): (n: nat) {
    if target <= ticks then 0 else
      TotalMonotone(rate, ticks, target);
      rate.TotalAt(target) - rate.TotalAt(ticks)
  }

  class SampleClock {
    const rate: ClockRate
    var ticks: nat

    constructor (sampleRate: nat, fpsNum: int, fpsDen: int)
      ensures rate == RateOf(sampleRate, fpsNum, fpsDen) && ticks == 0
    {
      rate := RateOf(sampleRate, fpsNum, fpsDen);
      ticks := 0;
    }

    method AdvanceTo(target: nat) returns (owed: nat)
      modifies this
      ensures ticks == Max(old(ticks), target)
      ensures owed == Owed(rate, old(ticks), target)
    {
      if target <= ticks {
        return 0;
      }
      TotalMonotone(rate, ticks, target);
      owed := rate.TotalAt(target) - rate.TotalAt(ticks);
      ticks := target;
    }

    method NextTick() returns (owed: nat)
      modifies this
      ensures ticks == old(ticks) + 1
      ensures owed == rate.TotalAt(old(ticks) + 1) - rate.TotalAt(old(ticks))
    {
      owed := AdvanceTo(ticks + 1);
    }
  }

  lemma TotalMonotone(rate: ClockRate, a: nat, b: nat)
    requires a <= b
    ensures rate.TotalAt(a) <= rate.TotalAt(b)
  {
    ScaleMono(a, b, rate.num);
    DivideMono(a * rate.num, b * rate.num, rate.den);
  }

  lemma DivideMono(x: nat, y: nat, d: nat)
    requires x <= y && d > 0
    ensures x / d <= y / d
  {
    assert x == (x / d) * d + x % d && y == (y / d) * d + y % d;
    if x / d > y / d {
      Distribute(y / d, 1, d);
      ScaleMono(y / d + 1, x / d, d);
    }
  }

  // ---- whole runs ------------------------------------------------------------

  /** One call on a running clock. */
  datatype Call = NextTick | AdvanceTo(target: nat)

  function Target(ticks: nat, call: Call): nat {
    match call
    case NextTick => ticks + 1
    case AdvanceTo(t) => t
  }

  function TicksAfter(ticks: nat, calls: seq<Call>): nat
    decreases |calls|
  {
    if calls == [] then ticks else TicksAfter(Max(ticks, Target(ticks, calls[0])), calls[1..])
  }

  /** Everything a run of calls emits. */
  function Emitted(rate: ClockRate, ticks: nat, calls: seq<Call>): nat
    decreases |calls|
  {
    if calls == [] then 0 else
      var target := Target(ticks, calls[0]);
      Owed(rate, ticks, target) + Emitted(rate, Max(ticks, target), calls[1..])
  }

  /** Any run of `next_tick` / `advance_to` telescopes: what it emits depends only on
      where it starts and where it ends, so skipping ticks never drifts, and stale
      targets contribute nothing. */
  lemma {:induction false} EmissionTelescopes(rate: ClockRate, ticks: nat, calls: seq<Call>)
    ensures ticks <= TicksAfter(ticks, calls)
    ensures rate.TotalAt(ticks) + Emitted(rate, ticks, calls) == rate.TotalAt(TicksAfter(ticks, calls))
    decreases |calls|
  {
    if calls == [] {
    } else {
      EmissionTelescopes(rate, Max(ticks, Target(ticks, calls[0])), calls[1..]);
    }
  }

  /** From a fresh clock the emitted total stays in the one-sample band just below the
      exact rational position, however the run was cut into calls. */
  lemma EmissionStaysInBand(rate: ClockRate, calls: seq<Call>)
    ensures var exact := TicksAfter(0, calls) * rate.num;
            var total := Emitted(rate, 0, calls) * rate.den;
            total <= exact < total + rate.den
  {
    EmissionTelescopes(rate, 0, calls);
    FloorBand(TicksAfter(0, calls) * rate.num, rate.den);
  }

  lemma FloorBand(t: nat, d: nat)
    requires d > 0
    ensures t / d * d <= t < t / d * d + d
  {}

  /** A single tick owes the floor of the rate or, when the rate is fractional, its ceiling. */
  lemma SingleTickIsFloorOrCeiling(rate: ClockRate, ticks: nat)
    ensures var owed := Owed(rate, ticks, ticks + 1);
            owed == rate.num / rate.den || (rate.num % rate.den != 0 && owed == rate.num / rate.den + 1)
  {
    var d, n := rate.den, rate.num;
    var x := ticks * n;
    Distribute(ticks, 1, n);
    var carry := x % d + n % d;
    var q := x / d + n / d;
    Distribute(x / d, n / d, d);
    if carry < d {
      QuotientUnique(x + n, d, q, carry);
    } else {
      Distribute(q, 1, d);
      QuotientUnique(x + n, d, q + 1, carry - d);
    }
  }

  /** The cadence is exactly periodic: `den` ticks from anywhere owe exactly `num` frames. */
  lemma PeriodOwesExactly(rate: ClockRate, ticks: nat)
    ensures Owed(rate, ticks, ticks + rate.den) == rate.num
  {
    var d, n := rate.den, rate.num;
    var x := ticks * n;
    Distribute(ticks, d, n);
    Distribute(x / d, n, d);
    QuotientUnique(x + d * n, d, x / d + n, x % d);
  }

  /** The clock keeps real time: at `fpsNum / fpsDen` ticks a second, any `fpsNum` ticks last
      `fpsDen` seconds and owe exactly that many seconds of frames. */
  lemma CadenceIsRealTime(sampleRate: nat, fpsNum: nat, fpsDen: nat, ticks: nat)
    requires fpsNum > 0
    ensures Owed(RateOf(sampleRate, fpsNum, fpsDen), ticks, ticks + fpsNum) == sampleRate * fpsDen
  {
    PeriodOwesExactly(RateOf(sampleRate, fpsNum, fpsDen), ticks);
  }
}
