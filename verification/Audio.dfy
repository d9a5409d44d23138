/** The PCM vocabulary the audio modules share: formats, interleaved blocks, the
    error values, and the arithmetic of frame-major interleaving.

    A buffer holds `frames * channels` samples; sample `n * channels + c` is channel
    `c` of frame `n`.  Samples are exact reals. */
module Audio {

  datatype ChannelLayout = Mono | Stereo | FivePointOne

  datatype AudioFormat = AudioFormat(sampleRate: nat, layout: ChannelLayout) {
    function Channels(): (c: nat)
      ensures c >= 1
    {
      match layout
      case Mono => 1
      case Stereo => 2
      case FivePointOne => 6
    }
  }

  /** A block of interleaved PCM; an `AudioBlock` always holds whole frames. */
  datatype PcmData = PcmData(format: AudioFormat, samples: seq<real>) {
    predicate Whole() {
      |samples| % format.Channels() == 0
    }

    function Frames(): nat {
      |samples| / format.Channels()
    }
  }

  type AudioBlock = b: PcmData | b.Whole() witness PcmData(AudioFormat(48000, Mono), [])

  datatype Outcome = Done | RaggedBlock(samples: nat, channels: nat) | FormatMismatch | UnknownInput(index: nat)

  datatype Option<+T> = None | Some(value: T)

  function Max(a: int, b: int): int {
    if a >= b then a else b
  }

  function Min(a: int, b: int): int {
    if a <= b then a else b
  }

  function Abs(x: real): real {
    if x < 0.0 then -x else x
  }

  /** A gain applied to a sample. */
  function Scale(gain: real, x: real): real {
    gain * x
  }

  function Square(x: real): real {
    x * x
  }

  function Dot(a: seq<real>, b: seq<real>, n: nat): real
    requires n <= |a| && n <= |b|
  {
    if n == 0 then 0.0 else Dot(a, b, n - 1) + Scale(a[n - 1], b[n - 1])
  }

  /** The hard limit to the sample domain. */
  function ClampUnit(v: real): (r: real)
    ensures -1.0 <= r <= 1.0
  {
    if v < -1.0 then -1.0 else if v > 1.0 then 1.0 else v
  }

  function Zeros(n: nat): (z: seq<real>)
    ensures |z| == n && forall k | 0 <= k < n :: z[k] == 0.0
  {
    seq(n, _ => 0.0)
  }

  function Silence(format: AudioFormat, frames: nat): (b: AudioBlock)
    ensures b.format == format && b.samples == Zeros(frames * format.Channels())
    ensures b.Frames() == frames
  {
    WholeFrames(frames, format.Channels());
    PcmData(format, Zeros(frames * format.Channels()))
  }

  // ---- gains ------------------------------------------------------------------

  lemma ScaleSums(a: real, b: real, x: real)
    ensures Scale(a + b, x) == Scale(a, x) + Scale(b, x)
    ensures Scale(a - b, x) == Scale(a, x) - Scale(b, x)
  {}

  lemma ScaleSwaps(a: real, b: real)
    ensures Scale(a, b) == Scale(b, a)
  {}

  lemma ScaleRegroups(a: real, b: real, c: real)
    ensures Scale(Scale(a, b), c) == Scale(a, Scale(b, c))
  {}

  lemma ScaleGrows(a: real, b: real, x: real)
    requires a <= b && x >= 0.0
    ensures Scale(a, x) <= Scale(b, x)
  {}

  // ---- interleaving arithmetic ---------------------------------------------

  lemma Distribute(a: int, b: int, c: int)
    ensures (a + b) * c == a * c + b * c
    ensures (a - b) * c == a * c - b * c
  {}

  lemma ScaleMono(a: int, b: int, c: int)
    requires a <= b && c >= 0
    ensures a * c <= b * c
  {}

  lemma ScaleStrict(a: int, b: int, c: int)
    requires c > 0
    ensures a < b <==> a * c < b * c
  {}

  /** `frames * channels` samples are whole frames, and there are `frames` of them. */
  lemma WholeFrames(frames: nat, channels: nat)
    requires channels > 0
    ensures frames * channels >= 0
    ensures (frames * channels) % channels == 0
    ensures (frames * channels) / channels == frames
  {
    var n := frames * channels;
    QuotientUnique(n, channels, frames, 0);
  }

  lemma QuotientUnique(n: int, d: int, q: int, r: int)
    requires d > 0 && n == q * d + r && 0 <= r < d
    ensures n / d == q && n % d == r
  {
    var q', r' := n / d, n % d;
    assert n == q' * d + r';
    Distribute(q, q', d);
    if q > q' {
      ScaleMono(1, q - q', d);
    } else if q < q' {
      ScaleMono(1, q' - q, d);
      Distribute(q', q, d);
    }
  }

  /** A whole-frame sample count is its frame count times the channel count. */
  lemma FrameCount(n: nat, channels: nat)
    requires channels > 0 && n % channels == 0
    ensures (n / channels) * channels == n
  {}

  /** The frame a sample of a span lies in. */
  lemma FrameOf(k: nat, frames: nat, channels: nat)
    requires channels > 0 && k < frames * channels
    ensures 0 <= k / channels < frames
  {
    if k / channels >= frames {
      ScaleMono(frames, k / channels, channels);
    }
  }

  /** Splitting a sample offset into its frame and its channel. */
  lemma SplitOffset(frame: int, k: int, channels: nat)
    requires channels > 0
    ensures (frame * channels + k) / channels == frame + k / channels
    ensures (frame * channels + k) % channels == k % channels
  {
    Distribute(frame, k / channels, channels);
    QuotientUnique(frame * channels + k, channels, frame + k / channels, k % channels);
  }

  /** Frame `n` of a buffer lies wholly inside it. */
  lemma FrameBounds(len: nat, channels: nat, n: nat)
    requires channels > 0 && n < len / channels
    ensures 0 <= n * channels && n * channels + channels <= len
  {
    Distribute(n, 1, channels);
    ScaleMono(n + 1, len / channels, channels);
    ScaleMono(0, n, channels);
  }

  lemma WholeSum(a: nat, b: nat, channels: nat)
    requires channels > 0 && a % channels == 0 && b % channels == 0
    ensures (a + b) % channels == 0
    ensures (a + b) / channels == a / channels + b / channels
  {
    Distribute(a / channels, b / channels, channels);
    QuotientUnique(a + b, channels, a / channels + b / channels, 0);
  }
}
