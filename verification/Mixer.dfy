/** The program mixer: a generational slot map of input strips, each with a steady gain
    and an optional per-frame gain ramp. */
module Mixer {
  import opened Audio

  /** The trigonometry the equal-power taper uses. */
  datatype Trig = Trig(sin: real -> real, cos: real -> real, halfPi: real) {
    ghost predicate Pythagorean() {
      forall x :: sin(x) * sin(x) + cos(x) * cos(x) == 1.0
    }

    /** The first quarter turn: sine climbs from zero to one, cosine falls from one to zero. */
    ghost predicate Quarter() {
      && halfPi > 0.0 && sin(0.0) == 0.0 && cos(0.0) == 1.0 && sin(halfPi) == 1.0 && cos(halfPi) == 0.0
      && forall x: real, y: real | 0.0 <= x < y <= halfPi :: sin(x) < sin(y) && cos(x) > cos(y)
    }

    /** In the first quarter turn, cosine is the sine of what is left of it. */
    ghost predicate Complements() {
      forall x: real | 0.0 <= x <= halfPi :: cos(halfPi - x) == sin(x)
    }

    /** The second quarter turn mirrors the first. */
    ghost predicate Reflects() {
      forall y: real | 0.0 <= y <= halfPi :: sin(halfPi + y) == cos(y) && cos(halfPi + y) == -sin(y)
    }
  }

  const MAX_GENERATION: nat := 0xFFFF_FFFF_FFFF_FFFF
  const MAX_U32: nat := 0xFFFF_FFFF

  /** `frame / total`; counts beyond 32 bits saturate. */
  function Ratio(frame: nat, total: nat): real {
    Min(frame, MAX_U32) as real / Min(Max(total, 1), MAX_U32) as real
  }

  /** A gain envelope over `total` frames, `done` of which have elapsed. */
  datatype GainRamp = GainRamp(start: real, end: real, total: nat, done: nat) {
    static function Up(frames: nat): GainRamp {
      GainRamp(0.0, 1.0, frames, 0)
    }

    static function Down(frames: nat): GainRamp {
      GainRamp(1.0, 0.0, frames, 0)
    }

    predicate Complete() {
      done >= total
    }

    function EnvelopeAt(trig: Trig, frame: nat): (g: real)
      ensures -1.0 <= g <= 1.0
    {
      Envelope(trig, start, end, total, frame)
    }
  }

  /** Progress through a ramp, as an angle in the first quadrant. */
  function Theta(trig: Trig, frame: nat, total: nat): real {
    Ratio(frame, total) * trig.halfPi
  }

  /** The gain at envelope position `frame`: a quarter sine (rising) or cosine (falling)
      from `start` to `end` over `total` frames, then `end` for good. */
  function Envelope(trig: Trig, start: real, end: real, total: nat, frame: nat): (g: real)
    ensures -1.0 <= g <= 1.0
  {
    if total == 0 || frame >= total then ClampUnit(end) else
      var theta := Theta(trig, frame, total);
      if end >= start then Blend(start, end, trig.sin(theta)) else Blend(end, start, trig.cos(theta))
  }

  /** The unit shape mapped onto the gain span `[lo, hi]`. */
  function Blend(lo: real, hi: real, shaped: real): (g: real)
    ensures -1.0 <= g <= 1.0
    ensures lo == 0.0 && hi == 1.0 ==> g == ClampUnit(shaped)
  {
    ClampUnit(lo + (hi - lo) * shaped)
  }

  /** A generation-tagged handle on a strip slot. */
  datatype RoutePoint = RoutePoint(input: nat, generation: nat)

  datatype Strip = Strip(id: string, gain: real, routed: bool, latest: Option<seq<real>>, ramp: Option<GainRamp>) {
    /** The gain applied `frame` frames from now. */
    function GainAt(trig: Trig, frame: nat): real {
      match ramp
      case None => gain
      case Some(r) => Scale(gain, r.EnvelopeAt(trig, r.done + frame))
    }

    /** What this strip adds to bus sample `k` of this tick. */
    function Contribution(trig: Trig, channels: nat, k: nat): real
      requires channels > 0
    {
      if routed && latest.Some? && k < |latest.value| then Scale(GainAt(trig, k / channels), latest.value[k]) else 0.0
    }

    /** The strip `frames` frames later; a ramp that has run out settles into the gain. */
    function Advance(trig: Trig, frames: nat): Strip {
      match ramp
      case None => this
      case Some(r) =>
        var r' := r.(done := r.done + frames);
        if r'.Complete() then this.(gain := Scale(gain, r'.EnvelopeAt(trig, r'.total)), ramp := None)
        else this.(ramp := Some(r'))
    }
  }

  const NewStrip := (id: string) => Strip(id, 1.0, false, None, None)

  /** The mixer's storage. */
  datatype Slots = Slots(slots: seq<Option<Strip>>, generations: seq<nat>, free: seq<nat>) {
    /** Parallel storage; the free list is duplicate-free and names empty slots only; an
        empty slot off the list has exhausted its generations. */
    ghost predicate WellFormed() {
      && |slots| == |generations|
      && (forall i | 0 <= i < |generations| :: generations[i] <= MAX_GENERATION)
      && (forall j | 0 <= j < |free| :: free[j] < |slots| && slots[free[j]].None?)
      && (forall i, j | 0 <= i < j < |free| :: free[i] != free[j])
      && (forall i | 0 <= i < |slots| && slots[i].None? && i !in free :: generations[i] == MAX_GENERATION)
    }

    predicate Names(p: RoutePoint) {
      p.input < |generations| && p.input < |slots| && generations[p.input] == p.generation && slots[p.input].Some?
    }

    /** The occupied strip a live handle names. */
    function Find(p: RoutePoint): Option<Strip> {
      if Names(p) then slots[p.input] else None
    }

    function With(p: RoutePoint, strip: Strip): Slots
      requires Names(p)
    {
      this.(slots := slots[p.input := Some(strip)])
    }

    function AddInput(id: string): (r: (Slots, RoutePoint)) {
      if |free| > 0 && free[|free| - 1] < |slots| && free[|free| - 1] < |generations| then
        var i := free[|free| - 1];
        (Slots(slots[i := Some(NewStrip(id))], generations, free[..|free| - 1]), RoutePoint(i, generations[i]))
      else
        (Slots(slots + [Some(NewStrip(id))], generations + [0], if |free| > 0 then free[..|free| - 1] else free),
         RoutePoint(|slots|, 0))
    }

    function RemoveInput(p: RoutePoint): Slots {
      if !Names(p) then this
      else if generations[p.input] < MAX_GENERATION then
        Slots(slots[p.input := None], generations[p.input := generations[p.input] + 1], free + [p.input])
      else this.(slots := slots[p.input := None])
    }

    function RouteToProgram(p: RoutePoint, gain: real): Slots {
      if Names(p) then With(p, slots[p.input].value.(gain := gain, routed := true)) else this
    }

    function SetGainRamp(p: RoutePoint, ramp: GainRamp): Slots {
      if Names(p) then With(p, slots[p.input].value.(ramp := Some(ramp))) else this
    }

    function Submit(p: RoutePoint, samples: seq<real>): Slots {
      if Names(p) then With(p, slots[p.input].value.(latest := Some(samples))) else this
    }

    function AdvanceRamps(trig: Trig, frames: nat): (r: Slots) {
      this.(slots := seq(|slots|, i requires 0 <= i < |slots| => AdvanceSlot(trig, frames, slots[i])))
    }

    /** The longest routed and submitted block among the first `n` slots, in frames. */
    function MixFrames(channels: nat, n: nat): nat
      requires channels > 0 && n <= |slots|
    {
      if n == 0 then 0 else Max(MixFrames(channels, n - 1), SlotFrames(channels, slots[n - 1]))
    }

    /** The unclamped bus sample `k`, over the first `n` slots. */
    function BusSum(trig: Trig, channels: nat, n: nat, k: nat): real
      requires channels > 0 && n <= |slots|
    {
      if n == 0 then 0.0 else
        BusSum(trig, channels, n - 1, k) +
        if slots[n - 1].Some? then slots[n - 1].value.Contribution(trig, channels, k) else 0.0
    }
  }

  function AdvanceSlot(trig: Trig, frames: nat, slot: Option<Strip>): Option<Strip> {
    match slot
    case None => None
    case Some(strip) => Some(strip.Advance(trig, frames))
  }

  function SlotFrames(channels: nat, slot: Option<Strip>): nat
    requires channels > 0
  {
    if slot.Some? && slot.value.routed && slot.value.latest.Some? then |slot.value.latest.value| / channels else 0
  }

  class Mixer {
    const format: AudioFormat
    const trig: Trig
    var slots: seq<Option<Strip>>
    var generations: seq<nat>
    var free: seq<nat>

    function View(): Slots
      reads this
    {
      Slots(slots, generations, free)
    }

    constructor (format: AudioFormat, trig: Trig)
      ensures this.format == format && this.trig == trig
      ensures View() == Slots([], [], [])
    {
      this.format := format;
      this.trig := trig;
      slots, generations, free := [], [], [];
    }

    method AddInput(id: string) returns (point: RoutePoint)
      modifies this
      ensures (View(), point) == old(View()).AddInput(id)
    {
      var strip := NewStrip(id);
      if |free| > 0 {
        var index := free[|free| - 1];
        free := free[..|free| - 1];
        if index < |slots| && index < |generations| {
          slots := slots[index := Some(strip)];
          return RoutePoint(index, generations[index]);
        }
      }
      point := RoutePoint(|slots|, 0);
      slots := slots + [Some(strip)];
      generations := generations + [0];
    }

    method RemoveInput(point: RoutePoint) returns (removed: bool)
      modifies this
      ensures View() == old(View()).RemoveInput(point)
      ensures removed == old(View()).Names(point)
    {
      if point.input >= |generations| || point.input >= |slots| {
        return false;
      }
      var generation := generations[point.input];
      if generation != point.generation || slots[point.input].None? {
        return false;
      }
      slots := slots[point.input := None];
      if generation < MAX_GENERATION {
        generations := generations[point.input := generation + 1];
        free := free + [point.input];
      }
      return true;
    }

    method RouteToProgram(point: RoutePoint, gain: real)
      modifies this`slots
      ensures View() == old(View()).RouteToProgram(point, gain)
    {
      if View().Names(point) {
        slots := slots[point.input := Some(slots[point.input].value.(gain := gain, routed := true))];
      }
    }

    method SetGainRamp(point: RoutePoint, ramp: GainRamp)
      modifies this`slots
      ensures View() == old(View()).SetGainRamp(point, ramp)
    {
      if View().Names(point) {
        slots := slots[point.input := Some(slots[point.input].value.(ramp := Some(ramp)))];
      }
    }

    method AdvanceRamps(frames: nat)
      modifies this`slots
      ensures View() == old(View()).AdvanceRamps(trig, frames)
    {
      for i := 0 to |slots|
        invariant |slots| == |old(slots)|
        invariant forall j | 0 <= j < i :: slots[j] == AdvanceSlot(trig, frames, old(slots)[j])
        invariant forall j | i <= j < |slots| :: slots[j] == old(slots)[j]
      {
        if slots[i].Some? && slots[i].value.ramp.Some? {
          var strip := slots[i].value;
          var ramp := strip.ramp.value.(done := strip.ramp.value.done + frames);
          if ramp.Complete() {
            strip := strip.(gain := strip.gain * ramp.EnvelopeAt(trig, ramp.total), ramp := None);
          } else {
            strip := strip.(ramp := Some(ramp));
          }
          assert strip == slots[i].value.Advance(trig, frames);
          slots := slots[i := Some(strip)];
        }
      }
      assert slots == old(View()).AdvanceRamps(trig, frames).slots;
    }

    method Submit(point: RoutePoint, block: AudioBlock) returns (r: Outcome)
      modifies this`slots
      ensures r == if block.format != format then FormatMismatch
                   else if old(View()).Names(point) then Done else UnknownInput(point.input)
      ensures View() == if block.format == format then old(View()).Submit(point, block.samples) else old(View())
    {
      if block.format != format {
        return FormatMismatch;
      }
      if !View().Names(point) {
        return UnknownInput(point.input);
      }
      slots := slots[point.input := Some(slots[point.input].value.(latest := Some(block.samples)))];
      return Done;
    }

    /** The program bus of this tick: every routed strip at its per-frame gain, summed and
        hard-limited; as long as the longest submitted block. */
    method MixProgram() returns (block: AudioBlock)
      requires forall i | 0 <= i < |slots| && slots[i].Some? && slots[i].value.latest.Some? ::
                 |slots[i].value.latest.value| % format.Channels() == 0
      ensures block.format == format
      ensures block.Frames() == View().MixFrames(format.Channels(), |slots|)
      ensures forall k | 0 <= k < |block.samples| ::
                block.samples[k] == ClampUnit(View().BusSum(trig, format.Channels(), |slots|, k))
    {
      var channels := format.Channels();
      var frames := 0;
      for i := 0 to |slots|
        invariant frames == View().MixFrames(channels, i)
      {
        frames := Max(frames, SlotFrames(channels, slots[i]));
      }
      WholeFrames(frames, channels);
      var acc := new real[frames * channels](_ => 0.0);
      for i := 0 to |slots|
        invariant forall k | 0 <= k < acc.Length :: acc[k] == View().BusSum(trig, channels, i, k)
      {
        if slots[i].Some? && slots[i].value.routed && slots[i].value.latest.Some? {
          Accumulate(acc, slots[i].value, channels);
        }
      }
      block := PcmData(format, seq(acc.Length, k requires 0 <= k < acc.Length reads acc => ClampUnit(acc[k])));
    }

    /** Adds one strip's block into the bus: one scalar when the gain is steady, one gain
        per frame while a ramp is in flight. */
    method Accumulate(acc: array<real>, strip: Strip, channels: nat)
      requires channels > 0 && acc.Length % channels == 0
      requires strip.routed && strip.latest.Some? && |strip.latest.value| % channels == 0
      modifies acc
      ensures forall k | 0 <= k < acc.Length :: acc[k] == old(acc[k]) + strip.Contribution(trig, channels, k)
    {
      var src := strip.latest.value;
      match strip.ramp
      case None =>
        AddScaled(acc, strip.gain, src, 0, Min(acc.Length, |src|));
      case Some(ramp) =>
        AddRamped(acc, strip, channels);
    }

    method AddRamped(acc: array<real>, strip: Strip, channels: nat)
      requires channels > 0 && acc.Length % channels == 0
      requires strip.routed && strip.latest.Some? && |strip.latest.value| % channels == 0
      requires strip.ramp.Some?
      modifies acc
      ensures forall k | 0 <= k < acc.Length :: acc[k] == old(acc[k]) + strip.Contribution(trig, channels, k)
    {
      var src, ramp := strip.latest.value, strip.ramp.value;
      var n := Min(|src| / channels, acc.Length / channels);
      FrameCount(|src|, channels);
      FrameCount(acc.Length, channels);
      ghost var adds := seq(acc.Length, k requires k >= 0 => strip.Contribution(trig, channels, k));
      ghost var was := acc[..];
      for frame := 0 to n
        invariant forall j | 0 <= j < acc.Length :: acc[j] == was[j] + if j < frame * channels then adds[j] else 0.0
      {
        Distribute(frame, 1, channels);
        ScaleMono(frame + 1, |src| / channels, channels);
        ScaleMono(frame + 1, acc.Length / channels, channels);
        var off := frame * channels;
        var gain := Scale(strip.gain, ramp.EnvelopeAt(trig, ramp.done + frame));
        FrameContribution(trig, strip, channels, frame);
        AddScaled(acc, gain, src, off, off + channels);
        assert forall j | off <= j < off + channels :: adds[j] == Scale(gain, src[j]);
      }
      forall k | 0 <= k < acc.Length
        ensures acc[k] == was[k] + adds[k]
      {
        ScaleMono(n, |src| / channels, channels);
        ScaleMono(n, acc.Length / channels, channels);
      }
    }
  }

  lemma FrameContribution(trig: Trig, strip: Strip, channels: nat, frame: nat)
    requires channels > 0 && strip.routed && strip.latest.Some?
    ensures forall j | frame * channels <= j < frame * channels + channels && j < |strip.latest.value| ::
              strip.Contribution(trig, channels, j) == Scale(strip.GainAt(trig, frame), strip.latest.value[j])
  {
    forall j | frame * channels <= j < frame * channels + channels
      ensures j / channels == frame
    {
      QuotientUnique(j, channels, frame, j - frame * channels);
    }
  }

  /** `acc[lo..hi] += gain * src[lo..hi]`. */
  method AddScaled(acc: array<real>, gain: real, src: seq<real>, lo: nat, hi: nat)
    requires lo <= hi <= acc.Length && hi <= |src|
    modifies acc
    ensures forall j | 0 <= j < acc.Length :: acc[j] == old(acc[j]) + if lo <= j < hi then Scale(gain, src[j]) else 0.0
  {
    for k := lo to hi
      invariant forall j | 0 <= j < acc.Length :: acc[j] == old(acc[j]) + if lo <= j < k then Scale(gain, src[j]) else 0.0
    {
      acc[k] := acc[k] + gain * src[k];
    }
  }

  // ---- ramps ---------------------------------------------------------------------

  /** Advancing a ramp only moves its origin: what a strip will apply at any later frame is
      unchanged, also when the ramp runs out and is folded into the steady gain. */
  lemma AdvanceShiftsGain(trig: Trig, strip: Strip, frames: nat, j: nat)
    ensures strip.Advance(trig, frames).GainAt(trig, j) == strip.GainAt(trig, frames + j)
  {}

  /** An equal-power pair keeps constant power at every frame of the fade, and once it is
      over the pair is exactly one and zero. */
  lemma EqualPower(trig: Trig, total: nat, frame: nat)
    requires trig.Pythagorean()
    ensures var up, down := Envelope(trig, 0.0, 1.0, total, frame), Envelope(trig, 1.0, 0.0, total, frame);
            && up * up + down * down == 1.0
            && (frame >= total ==> up == 1.0 && down == 0.0)
  {}

  lemma DivideGrows(x: real, y: real, d: real)
    requires x <= y && d > 0.0
    ensures x / d <= y / d
  {}

  lemma RatioGrows(a: nat, b: nat, total: nat)
    requires a <= b <= total && total > 0
    ensures 0.0 <= Ratio(a, total) <= Ratio(b, total) <= 1.0
  {
    var d := Min(total, MAX_U32) as real;
    DivideGrows(0.0, Min(a, MAX_U32) as real, d);
    DivideGrows(Min(a, MAX_U32) as real, Min(b, MAX_U32) as real, d);
    DivideGrows(Min(b, MAX_U32) as real, d, d);
  }

  lemma ThetaGrows(trig: Trig, a: nat, b: nat, total: nat)
    requires a <= b <= total && total > 0 && trig.halfPi > 0.0
    ensures 0.0 <= Theta(trig, a, total) <= Theta(trig, b, total) <= trig.halfPi
  {
    RatioGrows(a, b, total);
    var h := trig.halfPi;
    ScaleGrows(0.0, Ratio(a, total), h);
    ScaleGrows(Ratio(a, total), Ratio(b, total), h);
    ScaleGrows(Ratio(b, total), 1.0, h);
  }

  lemma BlendGrows(lo: real, hi: real, x: real, y: real)
    requires lo <= hi && 0.0 <= x <= y <= 1.0
    ensures ClampUnit(lo) <= Blend(lo, hi, x) <= Blend(lo, hi, y) <= ClampUnit(hi)
  {
    ScaleGrows(0.0, x, hi - lo);
    ScaleGrows(x, y, hi - lo);
    ScaleGrows(y, 1.0, hi - lo);
    assert (hi - lo) * x == Scale(x, hi - lo) && (hi - lo) * y == Scale(y, hi - lo);
  }

  /** The taper: between gains inside the unit range the clamp never acts, so a rising ramp is a
      quarter sine and a falling one a quarter cosine of the elapsed share. */
  lemma TaperIsQuarterTurn(trig: Trig, start: real, end: real, total: nat, frame: nat)
    requires trig.Quarter() && frame < total && -1.0 <= start <= 1.0 && -1.0 <= end <= 1.0
    ensures 0.0 <= Theta(trig, frame, total) <= trig.halfPi
    ensures Envelope(trig, start, end, total, frame)
            == var theta := Theta(trig, frame, total);
               if end >= start then start + Scale(end - start, trig.sin(theta)) else end + Scale(start - end, trig.cos(theta))
    ensures Envelope(trig, 0.0, 1.0, total, frame) == trig.sin(Theta(trig, frame, total))
    ensures Envelope(trig, 1.0, 0.0, total, frame) == trig.cos(Theta(trig, frame, total))
  {
    ThetaGrows(trig, frame, frame, total);
    var theta := Theta(trig, frame, total);
    QuarterBounds(trig, theta, theta);
    BlendIsInside(start, end, trig.sin(theta));
    BlendIsInside(end, start, trig.cos(theta));
    BlendIsInside(0.0, 1.0, trig.sin(theta));
    BlendIsInside(0.0, 1.0, trig.cos(theta));
    hide Theta, Blend, Scale;
  }

  lemma BlendIsInside(lo: real, hi: real, shaped: real)
    requires -1.0 <= lo <= 1.0 && -1.0 <= hi <= 1.0 && 0.0 <= shaped <= 1.0
    ensures lo <= hi ==> Blend(lo, hi, shaped) == lo + Scale(hi - lo, shaped)
    ensures lo == 0.0 && hi == 1.0 ==> Blend(lo, hi, shaped) == shaped
  {
    if lo <= hi {
      ScaleGrows(0.0, shaped, hi - lo);
      ScaleGrows(shaped, 1.0, hi - lo);
      ScaleSwaps(shaped, hi - lo);
    }
  }

  /** A ramp leaves from its first gain, moves one way only, and arrives at its last. */
  lemma RampMovesOneWay(trig: Trig, start: real, end: real, total: nat, a: nat, b: nat)
    requires trig.Quarter() && a <= b
    ensures total > 0 ==> Envelope(trig, start, end, total, 0) == ClampUnit(start)
    ensures b >= total ==> Envelope(trig, start, end, total, b) == ClampUnit(end)
    ensures var g, h := Envelope(trig, start, end, total, a), Envelope(trig, start, end, total, b);
            if start <= end then g <= h <= ClampUnit(end) else g >= h >= ClampUnit(end)
  {
    if total > 0 {
      assert Theta(trig, 0, total) == 0.0;
      if a < total {
        ThetaGrows(trig, a, Min(b, total), total);
        var x, y := Theta(trig, a, total), Theta(trig, Min(b, total), total);
        QuarterBounds(trig, x, y);
        if start <= end {
          BlendGrows(start, end, trig.sin(x), trig.sin(y));
        } else {
          BlendGrows(end, start, trig.cos(y), trig.cos(x));
        }
      }
    }
  }

  lemma QuarterBounds(trig: Trig, x: real, y: real)
    requires trig.Quarter() && 0.0 <= x <= y <= trig.halfPi
    ensures 0.0 <= trig.sin(x) <= trig.sin(y) <= 1.0
    ensures 0.0 <= trig.cos(y) <= trig.cos(x) <= 1.0
  {}

  lemma UnitSquare(s: real, c: real)
    requires s * s + c * c == 1.0
    ensures -1.0 <= s <= 1.0
  {}
}
