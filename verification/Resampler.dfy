/**
 * The decoder's last stage: frames of one or two channels are mixed to mono, clamped, and resampled to 16 kHz by linear
 * interpolation.  Floats are exact numbers here; a sample that is not a finite number is `None`.
 */
module Resampler {
  import opened Common

  const RATE := 16000
  const MAX_SAMPLES := 2880000

  datatype Encoding = Pcm16 | PcmFloat | OtherEncoding

  predicate Supported(rate: int, channels: int, encoding: Encoding) {
    8000 <= rate <= 48000 && 1 <= channels <= 2 && !encoding.OtherEncoding?
  }

  function Clamp(x: real): real { if x > 1.0 then 1.0 else if x < -1.0 then -1.0 else x }

  function Total(frame: seq<Option<real>>): Option<real> {
    if frame == [] then Some(0.0)
    else
      var rest := Total(frame[..|frame| - 1]);
      if rest.None? || frame[|frame| - 1].None? then None else Some(rest.value + frame[|frame| - 1].value)
  }

  /** The clamped mean of a frame's channels. */
  function Mono(frame: seq<Option<real>>): Option<real> {
    if frame == [] || Total(frame).None? then None else Some(Clamp(Total(frame).value / (|frame| as real)))
  }

  // ----- the specification

  /** Positions in sixteen-thousandths of a frame: sample `k` is taken at `k * rate / 16000`. */
  function Ticks(k: nat, rate: nat): nat { k * rate }

  function Position(k: nat, rate: nat): real { Ticks(k, rate) as real / 16000.0 }

  /** The frame at or just after that position. */
  function FrameOf(k: nat, rate: nat): nat { (Ticks(k, rate) + RATE - 1) / RATE }

  function Between(a: real, b: real, t: real): real { a + (b - a) * t }

  /** Linear interpolation of the input at the position of sample `k`. */
  function Interpolated(input: seq<real>, k: nat, rate: nat): real
    requires FrameOf(k, rate) < |input|
  {
    var f := FrameOf(k, rate);
    if f == 0 then input[0] else Between(input[f - 1], input[f], Position(k, rate) - (f - 1) as real)
  }

  /** How many samples the first `frames` frames give. */
  function Emitted(frames: nat, rate: nat): nat
    requires rate > 0
  {
    if frames == 0 then 0 else (frames - 1) * RATE / rate + 1
  }

  /** The mono values of the first `count` frames of a buffer, unless one of them is not a finite number. */
  function MonoOf(samples: seq<Option<real>>, channels: nat, count: nat): Option<seq<real>>
    requires count * channels <= |samples|
  {
    if count == 0 then Some([])
    else
      Grown(count, channels);
      var earlier, last := MonoOf(samples, channels, count - 1),
          Mono(samples[(count - 1) * channels..count * channels]);
      if earlier.None? || last.None? then None else Some(earlier.value + [last.value])
  }

  lemma Grown(count: nat, channels: nat)
    requires count > 0
    ensures (count - 1) * channels <= count * channels && count * channels - (count - 1) * channels == channels
  {
  }

  /** The nearest number to `x` between -1 and 1. */
  predicate Clamped(x: real, y: real) {
    -1.0 <= y <= 1.0 && (-1.0 <= x <= 1.0 ==> y == x) && (x > 1.0 ==> y == 1.0) && (x < -1.0 ==> y == -1.0)
  }

  predicate InRange(x: real) { -1.0 <= x <= 1.0 }

  function Scaled(x: real, t: real): real { x * t }

  /** An interpolation is a weighted mean, so it stays in the range of its ends. */
  lemma BetweenIsInRange(a: real, b: real, t: real)
    requires InRange(a) && InRange(b) && 0.0 <= t <= 1.0
    ensures InRange(Between(a, b, t))
  {
    Mixed(a, b, t);
    ScaledIsSmall(a, 1.0 - t);
    ScaledIsSmall(b, t);
    hide Scaled, Between;
  }

  lemma Mixed(a: real, b: real, t: real)
    ensures Between(a, b, t) == Scaled(a, 1.0 - t) + Scaled(b, t)
  {
    assert (b - a) * t == b * t - a * t;
    assert a * (1.0 - t) == a - a * t;
  }

  lemma ScaledIsSmall(x: real, t: real)
    requires InRange(x) && t >= 0.0
    ensures -t <= Scaled(x, t) <= t
  {
    NonNegative(1.0 - x, t);
    NonNegative(1.0 + x, t);
    assert (1.0 - x) * t == t - x * t && (1.0 + x) * t == t + x * t;
  }

  lemma NonNegative(x: real, y: real)
    requires x >= 0.0 && y >= 0.0
    ensures x * y >= 0.0
  {
  }

  /** The frame index is the position rounded up. */
  lemma FrameOfIs(k: nat, rate: nat, f: nat)
    ensures FrameOf(k, rate) == f <==> k * rate <= f * RATE && k * rate > (f - 1) * RATE
  {
  }

  lemma OffsetIsFraction(k: nat, rate: nat)
    requires FrameOf(k, rate) > 0
    ensures 0.0 <= Position(k, rate) - (FrameOf(k, rate) - 1) as real <= 1.0
  {
    var f := FrameOf(k, rate);
    FrameOfIs(k, rate, f);
    var p := k * rate;
    assert (f - 1) * RATE < p <= f * RATE;
    assert (f - 1) as real * 16000.0 == ((f - 1) * RATE) as real && f as real * 16000.0 == (f * RATE) as real;
  }

  /** Every output sample lies in the range of the input. */
  lemma InterpolatedIsInRange(input: seq<real>, k: nat, rate: nat)
    requires FrameOf(k, rate) < |input| && forall i :: 0 <= i < |input| ==> InRange(input[i])
    ensures InRange(Interpolated(input, k, rate))
  {
    var f := FrameOf(k, rate);
    if f > 0 {
      OffsetIsFraction(k, rate);
      BetweenIsInRange(input[f - 1], input[f], Position(k, rate) - (f - 1) as real);
    }
  }

  /**
   * Written out in whole numbers: a position on a frame gives that frame, and one between two frames gives their mean,
   * each weighted by how near it is.
   */
  lemma InterpolatedIsLinear(input: seq<real>, k: nat, rate: nat)
    requires FrameOf(k, rate) < |input|
    ensures var f, r := k * rate / 16000, k * rate % 16000;
            && f < |input| && (r == 0 ==> Interpolated(input, k, rate) == input[f])
            && (r > 0 ==>
                  && f + 1 < |input|
                  && Interpolated(input, k, rate) * 16000.0
                     == input[f] * (16000 - r) as real + input[f + 1] * r as real)
  {
    var p := k * rate;
    var f, r := p / 16000, p % 16000;
    FrameOfIs(k, rate, if r == 0 then f else f + 1);
    assert p == f * 16000 + r;
    assert p as real == f as real * 16000.0 + r as real;
    if r > 0 {
      WeightedMean(input[f], input[f + 1], Position(k, rate) - f as real, r as real);
    } else if f > 0 {
      assert Position(k, rate) - (f - 1) as real == 1.0;
    }
  }

  lemma WeightedMean(a: real, b: real, t: real, r: real)
    requires t * 16000.0 == r
    ensures Between(a, b, t) * 16000.0 == a * (16000.0 - r) + b * r
  {
    Scaling(b - a, t);
    assert b * r - a * r == (b - a) * r;
  }

  lemma Scaling(x: real, t: real)
    ensures x * t * 16000.0 == x * (t * 16000.0)
  {
  }

  /** What follows does not change what has been emitted. */
  lemma InterpolatedOfMore(input: seq<real>, mono: real, k: nat, rate: nat)
    requires FrameOf(k, rate) < |input|
    ensures Interpolated(input + [mono], k, rate) == Interpolated(input, k, rate)
  {
  }

  /** The count is where the positions pass the last frame. */
  lemma EmittedIs(frames: nat, rate: nat, count: nat)
    requires rate > 0 && frames > 0 && count > 0
    ensures count == Emitted(frames, rate) <==>
              count * rate > (frames - 1) * RATE && (count - 1) * rate <= (frames - 1) * RATE
  {
    var limit := (frames - 1) * RATE;
    var q := limit / rate;
    Quotient(limit, rate, q);
    if count == q + 1 {
    } else if count <= q {
      Ordered(count, q, rate);
    } else {
      Ordered(q + 1, count - 1, rate);
    }
  }

  lemma Quotient(limit: nat, rate: nat, q: nat)
    requires rate > 0 && q == limit / rate
    ensures q * rate <= limit < (q + 1) * rate
  {
    assert limit == q * rate + limit % rate;
    assert (q + 1) * rate == q * rate + rate;
  }

  lemma Ordered(a: nat, b: nat, rate: nat)
    requires a <= b
    ensures a * rate <= b * rate
  {
    assert b * rate == a * rate + (b - a) * rate;
  }

  /** For up to three minutes of frames the output fits, so the sample guard cannot fire. */
  lemma ThreeMinutesFit(frames: nat, rate: nat)
    requires 0 < frames <= rate * 180
    ensures Emitted(frames, rate) <= MAX_SAMPLES
  {
    var q := (frames - 1) * RATE / rate;
    Quotient((frames - 1) * RATE, rate, q);
    assert MAX_SAMPLES * rate == rate * 180 * RATE;
    Cancelled(q, MAX_SAMPLES, rate);
  }

  lemma Cancelled(a: nat, b: nat, rate: nat)
    requires a * rate < b * rate
    ensures a < b
  {
    if b <= a {
      Ordered(b, a, rate);
    }
  }

  /** At exact positions one frame more does not fit: its first new sample is the one too many. */
  lemma OneFrameMoreDoesNot(rate: nat)
    requires rate > 0
    ensures Emitted(rate * 180 + 1, rate) == MAX_SAMPLES + 1
  {
    assert rate * 180 * RATE == MAX_SAMPLES * rate;
    EmittedIs(rate * 180 + 1, rate, MAX_SAMPLES + 1);
  }

  /**
   * At a rate that is a multiple of 125, such as 8000, 12000, 16000, 24000, 32000 or 48000, every position is a whole
   * number of 128ths below 2^32, and so is every step: doubles add them up without rounding.
   */
  lemma StepsAreDyadic(k: nat, rate: nat)
    requires rate % 125 == 0 && rate <= 48000 && k <= MAX_SAMPLES + 1
    ensures var n := k * (rate / 125); n < 0x1_0000_0000 && Position(k, rate) == n as real / 128.0
  {
    var m := rate / 125;
    Ordered(k, MAX_SAMPLES + 1, m);
    assert Ticks(k, rate) == k * m * 125;
    assert Position(k, rate) == (k * m) as real / 128.0;
  }

  // ----- the program

  class Decoder {
    var rate: nat
    var channels: nat
    var encoding: Encoding
    var frames: nat
    var next: real
    var previous: real
    var count: nat
    const pcm: array<real>
    /** The mono frames heard so far. */
    ghost var heard: seq<real>

    ghost predicate Formatted()
      reads `rate, `channels, `encoding
    {
      Supported(rate, channels, encoding)
    }

    /** What has been emitted is exactly the interpolation of what has been heard. */
    ghost predicate Valid()
      reads this, pcm
    {
      && ((rate == 0 && channels == 0) || Formatted()) && pcm.Length == MAX_SAMPLES && |heard| == frames
      && count <= MAX_SAMPLES
      && (frames > 0 ==>
           Formatted() && previous == heard[frames - 1] && count == Emitted(frames, rate) && frames <= rate * 180)
      && (frames == 0 ==> count == 0)
      && (forall i :: 0 <= i < frames ==> InRange(heard[i]))
      && (count == 0 ==> next == 0.0) && (count > 0 ==> next == Position(count, rate))
      && (forall k :: 0 <= k < count ==> FrameOf(k, rate) < frames && pcm[k] == Interpolated(heard, k, rate))
    }

    constructor ()
      ensures Valid() && frames == 0 && heard == [] && rate == 0 && fresh(pcm)
    {
      rate, channels, encoding, frames, next, previous, count, heard := 0, 0, Pcm16, 0, 0.0, 0.0, 0, [];
      pcm := new real[MAX_SAMPLES](_ => 0.0);
    }

    /** Once a frame has been heard the format may be announced again but not changed. */
    method FormatChanged(newRate: int, newChannels: int, newEncoding: Encoding) returns (ok: bool)
      requires Valid()
      modifies `rate, `channels, `encoding
      ensures Valid()
      ensures ok <==>
                && 8000 <= newRate <= 48000 && 1 <= newChannels <= 2 && !newEncoding.OtherEncoding?
                && (frames > 0 ==> old(rate) == newRate && old(channels) == newChannels && old(encoding) == newEncoding)
      ensures if ok then rate == newRate && channels == newChannels && encoding == newEncoding
              else rate == old(rate) && channels == old(channels) && encoding == old(encoding)
    {
      if newRate < 8000 || newRate > 48000 || newChannels < 1 || newChannels > 2 || newEncoding.OtherEncoding? {
        return false;
      }
      if frames > 0 && (rate != newRate || channels != newChannels || encoding != newEncoding) {
        return false;
      }
      rate, channels, encoding := newRate, newChannels, newEncoding;
      return true;
    }

    method Mix(frame: seq<Option<real>>) returns (mono: Option<real>)
      requires frame != []
      ensures mono == Mono(frame)
      ensures mono.Some? <==> forall c :: 0 <= c < |frame| ==> frame[c].Some?
      ensures mono.Some? && |frame| == 1 ==> Clamped(frame[0].value, mono.value)
      ensures mono.Some? && |frame| == 2 ==> Clamped((frame[0].value + frame[1].value) / 2.0, mono.value)
    {
      var sum := 0.0;
      for c := 0 to |frame|
        invariant Total(frame[..c]) == Some(sum)
        invariant forall b :: 0 <= b < c ==> frame[b].Some?
        invariant (c == 1 ==> sum == frame[0].value) && (c == 2 ==> sum == frame[0].value + frame[1].value)
        invariant c == 0 ==> sum == 0.0
      {
        assert frame[..c + 1][..c] == frame[..c];
        if frame[c].None? {
          NotFinite(frame, c);
          return None;
        }
        sum := sum + frame[c].value;
      }
      assert frame[..|frame|] == frame;
      return Some(Clamp(sum / (|frame| as real)));
    }

    /**
     * One mono frame: emits every sample whose position it reaches; the failure is the three-minute limit.  Positions
     * are exact here.  The program adds them up in doubles, which is the same for the rates of `StepsAreDyadic`; for
     * others, 9600 for one, rounding can let the check on the frames decide instead.
     */
    method Emit(mono: real) returns (ok: bool)
      requires Valid() && Formatted() && InRange(mono)
      modifies `frames, `next, `previous, `count, `heard, pcm
      ensures ok ==> Valid() && heard == old(heard) + [mono] && frames == old(frames) + 1
      ensures ok <==> old(frames) < rate * 180
    {
      hide Interpolated, Between, FrameOf, Emitted, Position, Ticks;
      assert next == Position(count, rate) by { PositionZero(rate); }
      if frames == 0 {
        previous := mono;
      }
      ghost var input := heard + [mono];
      FirstOfFrame(count, frames, rate);
      KeepEmitted(mono);
      while next <= frames as real
        invariant heard == old(heard) && frames == old(frames) && count <= MAX_SAMPLES && next == Position(count, rate)
        invariant (frames > 0 ==> previous == heard[frames - 1])
        invariant count > 0 || frames == 0
        invariant count > 0 ==> Ticks(count - 1, rate) <= frames * RATE
        invariant frames > 0 ==> Ticks(count, rate) > (frames - 1) * RATE
        invariant forall k :: 0 <= k < count ==> FrameOf(k, rate) < |input| && pcm[k] == Interpolated(input, k, rate)
        decreases MAX_SAMPLES - count
      {
        Reached(count, frames, rate);
        ThisSample(input, count, frames, rate);
        if count == MAX_SAMPLES {
          TooMany(frames, rate);
          return false;
        }
        pcm[count] := if frames == 0 then mono else Between(previous, mono, next - (frames - 1) as real);
        NextPosition(count, rate);
        count := count + 1;
        next := next + rate as real / 16000.0;
      }
      Passed(count, frames, rate);
      previous, frames, heard := mono, frames + 1, input;
      NotTooMany(count, frames, rate);
      // The program checks the number of frames here as well; with exact positions the sample guard has already
      // decided.
      if frames > rate * 180 {
        assert false;
      }
      return true;
    }

    /** One frame. */
    method Hear(frame: seq<Option<real>>) returns (ok: bool)
      requires Valid() && Formatted() && frame != []
      modifies `frames, `next, `previous, `count, `heard, pcm
      ensures ok <==> Mono(frame).Some? && old(frames) < rate * 180
      ensures ok ==> Valid() && frames == old(frames) + 1 && heard == old(heard) + [Mono(frame).value]
    {
      hide Valid, Mono, Clamp, Supported;
      var mono := Mix(frame);
      if mono.None? {
        return false;
      }
      MonoIsInRange(frame);
      ok := Emit(mono.value);
    }

    /** One output buffer; `ragged` says that its size is no whole number of samples. */
    method Consume(samples: seq<Option<real>>, ragged: bool) returns (ok: bool)
      requires Valid()
      modifies `frames, `next, `previous, `count, `heard, pcm
      ensures ok ==> Valid()
      ensures samples == [] && !ragged ==> ok && heard == old(heard)
      ensures samples != [] || ragged ==>
                (ok <==>
                    !ragged && Formatted() && |samples| % channels == 0
                    && MonoOf(samples, channels, |samples| / channels).Some?
                         && old(frames) + |samples| / channels <= rate * 180)
      ensures ok && samples != [] ==> heard == old(heard) + MonoOf(samples, channels, |samples| / channels).value
    {
      if samples == [] && !ragged {
        return true;
      }
      Unformatted();
      if rate == 0 || channels == 0 || ragged || |samples| % channels != 0 {
        return false;
      }
      hide Valid, Mono, MonoOf, Clamp, Supported;
      var whole := |samples| / channels;
      WholeFrames(|samples|, channels);
      NothingYet(samples, channels);
      var f := 0;
      while f < whole
        invariant f <= whole && f * channels <= |samples| && Valid() && frames == old(frames) + f
        invariant f > 0 ==> frames <= rate * 180
        invariant MonoOf(samples, channels, f).Some? && heard == old(heard) + MonoOf(samples, channels, f).value
      {
        Grown(f + 1, channels);
        FrameFits(f + 1, whole, channels);
        NextMono(samples, channels, f);
        var frame := samples[f * channels..(f + 1) * channels];
        var fits := Hear(frame);
        if !fits {
          if Mono(frame).None? {
            SpoiltFrame(samples, channels, f + 1, whole);
          }
          return false;
        }
        f := f + 1;
      }
      return true;
    }

    /** Before the first format announcement nothing can be decoded. */
    lemma Unformatted()
      requires Valid()
      ensures rate == 0 || channels == 0 <==> !Formatted()
    {
    }

    /** The resampled audio, and nothing left behind in the buffer. */
    method Finish() returns (r: Result<seq<real>>)
      requires Valid()
      modifies pcm
      ensures r.Failed? <==> frames == 0
      ensures r.Ok? ==> |r.value| == Emitted(frames, rate) && forall k :: 0 <= k < |r.value| ==>
                FrameOf(k, rate) < frames && r.value[k] == Interpolated(heard, k, rate) && InRange(r.value[k])
      ensures forall i :: 0 <= i < pcm.Length ==> pcm[i] == 0.0
    {
      CountOfFrames();
      r := if count == 0 then Failed else Ok(pcm[..count]);
      forall k | 0 <= k < count ensures InRange(pcm[k]) {
        InterpolatedIsInRange(heard, k, rate);
      }
      forall i | 0 <= i < pcm.Length {
        pcm[i] := 0.0;
      }
    }

    lemma CountOfFrames()
      requires Valid()
      ensures count == 0 <==> frames == 0
    {
    }

    /** Adding a frame leaves every emitted sample as it was. */
    lemma KeepEmitted(mono: real)
      requires Valid()
      ensures forall k :: 0 <= k < count ==>
                  FrameOf(k, rate) < |heard + [mono]| && pcm[k] == Interpolated(heard + [mono], k, rate)
    {
      forall k | 0 <= k < count
        ensures FrameOf(k, rate) < |heard + [mono]| && pcm[k] == Interpolated(heard + [mono], k, rate)
      {
        InterpolatedOfMore(heard, mono, k, rate);
      }
    }
  }

  lemma WholeFrames(size: nat, channels: nat)
    requires channels > 0 && size % channels == 0
    ensures size / channels * channels == size
  {
  }

  lemma NothingYet(samples: seq<Option<real>>, channels: nat)
    ensures MonoOf(samples, channels, 0) == Some([])
  {
  }

  lemma NextMono(samples: seq<Option<real>>, channels: nat, f: nat)
    requires (f + 1) * channels <= |samples| && f * channels <= (f + 1) * channels
    ensures var earlier, last := MonoOf(samples, channels, f), Mono(samples[f * channels..(f + 1) * channels]);
            MonoOf(samples, channels, f + 1) == if earlier.None? || last.None? then None
                else Some(earlier.value + [last.value])
  {
  }

  lemma MonoIsInRange(frame: seq<Option<real>>)
    ensures Mono(frame).Some? ==> InRange(Mono(frame).value)
  {
  }

  lemma FrameFits(f: nat, whole: nat, channels: nat)
    requires f <= whole
    ensures f * channels <= whole * channels
  {
    Ordered(f, whole, channels);
  }

  /** One frame that is not a number spoils the whole buffer. */
  lemma {:induction false} SpoiltFrame(samples: seq<Option<real>>, channels: nat, f: nat, whole: nat)
    requires 0 < f <= whole && whole * channels <= |samples| && f * channels <= |samples|
    requires MonoOf(samples, channels, f).None?
    ensures MonoOf(samples, channels, whole).None?
    decreases whole
  {
    if f < whole {
      FrameFits(whole - 1, whole, channels);
      SpoiltFrame(samples, channels, f, whole - 1);
    }
  }

  lemma NotFinite(frame: seq<Option<real>>, c: nat)
    requires c < |frame| && frame[c].None?
    ensures Total(frame).None?
  {
    if c < |frame| - 1 {
      NotFinite(frame[..|frame| - 1], c);
    }
  }

  /** At the start of a frame, all samples up to the frame before it are out. */
  lemma FirstOfFrame(count: nat, frames: nat, rate: nat)
    requires rate > 0 && (frames > 0 ==> count == Emitted(frames, rate))
    ensures frames > 0 ==>
              count > 0 && Ticks(count, rate) > (frames - 1) * RATE && Ticks(count - 1, rate) <= frames * RATE
  {
    if frames > 0 {
      EmittedIs(frames, rate, count);
    }
  }

  lemma Reached(count: nat, frames: nat, rate: nat)
    requires Position(count, rate) <= frames as real && (frames > 0 ==> Ticks(count, rate) > (frames - 1) * RATE)
    ensures Ticks(count, rate) <= frames * RATE && FrameOf(count, rate) == frames
  {
    assert (count * rate) as real <= (frames * RATE) as real;
    FrameOfIs(count, rate, frames);
  }

  lemma PositionZero(rate: nat)
    ensures Position(0, rate) == 0.0
  {
  }

  /** A sample whose position falls just before or on the newest frame is interpolated between the last two. */
  lemma ThisSample(input: seq<real>, k: nat, frames: nat, rate: nat)
    requires |input| == frames + 1 && FrameOf(k, rate) == frames
    ensures Interpolated(input, k, rate) == if frames == 0 then input[0]
                else Between(input[frames - 1], input[frames], Position(k, rate) - (frames - 1) as real)
  {
  }

  lemma Passed(count: nat, frames: nat, rate: nat)
    requires Position(count, rate) > frames as real && rate > 0
    requires count > 0 ==> Ticks(count - 1, rate) <= frames * RATE
    ensures count > 0 && count == Emitted(frames + 1, rate)
  {
    assert (count * rate) as real > (frames * RATE) as real;
    assert count > 0;
    EmittedIs(frames + 1, rate, count);
  }

  lemma NextPosition(count: nat, rate: nat)
    ensures Position(count + 1, rate) == Position(count, rate) + rate as real / 16000.0
    ensures Ticks(count + 1, rate) >= Ticks(count, rate)
  {
    assert (count + 1) * rate == count * rate + rate;
  }

  lemma TooMany(frames: nat, rate: nat)
    requires Ticks(MAX_SAMPLES, rate) <= frames * RATE
    ensures frames >= rate * 180
  {
  }

  lemma NotTooMany(count: nat, frames: nat, rate: nat)
    requires rate > 0 && frames > 0 && count == Emitted(frames, rate) && count <= MAX_SAMPLES
    ensures frames <= rate * 180
  {
    EmittedIs(frames, rate, count);
    Ordered(count, MAX_SAMPLES, rate);
  }
}
