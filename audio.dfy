/** Model of the audio side of the tone generator (src/audio.rs): the
    shared tone parameters and the callback that fills one output buffer
    with an interleaved sinusoid. */
module Audio {

  /** The tone parameters shared with the control side. Nothing in the
      modelled code writes them; the callback only reads them. */
  class AudioParams {
    var frequency: real
    var amplitude: real

    /** `AudioParams::default`: a 1 kHz tone at half of full scale. */
    constructor Default()
      ensures frequency == 1000.0 && amplitude == 0.5
    {
      frequency := 1000.0;
      amplitude := 0.5;
    }
  }

  /** The sample emitted at time index `t`: `a * sin(2π * t * f / sampleRate)`,
      where `wave(x)` stands for `sin(2πx)`. */
  function Sample(wave: real -> real, f: real, a: real, t: nat, sampleRate: nat): (y: real)
    requires sampleRate > 0
    ensures a == 0.0 ==> y == 0.0
  {
    a * wave((t as real) * f / (sampleRate as real))
  }

  /** `n` copies of the sample `y`: one frame (or the trailing part of one). */
  function Broadcast(y: real, n: nat): seq<real>
  {
    seq(n, _ => y)
  }

  /** Reference definition of a filled buffer of length `len`, built frame by
      frame as `chunks_mut(channels)` hands out frames: each chunk holds
      `channels` samples except a shorter trailing one, and the frames use the
      consecutive time indices `t, t + 1, ...`. */
  function Render(wave: real -> real, f: real, a: real, t: nat, sampleRate: nat,
                  channels: nat, len: nat): (r: seq<real>)
    requires sampleRate > 0 && channels > 0
    ensures |r| == len
    decreases len
  {
    if len == 0 then []
    else
      var n := if len < channels then len else channels;
      Broadcast(Sample(wave, f, a, t, sampleRate), n)
        + Render(wave, f, a, t + 1, sampleRate, channels, len - n)
  }

  /** The clock after a block of `len` interleaved samples: advanced by the
      number of whole frames, wrapped at the sample rate. */
  function NextClock(clock: nat, len: nat, channels: nat, sampleRate: nat): (c: nat)
    requires channels > 0 && sampleRate > 0
    ensures c < sampleRate
    ensures clock + len / channels < sampleRate ==> c == clock + len / channels
  {
    var elapsed := clock + len / channels;
    ModOfSmaller(elapsed, sampleRate);
    elapsed % sampleRate
  }

  /** The clock after a sequence of blocks of the given lengths. */
  function ClockAfter(clock: nat, lens: seq<nat>, channels: nat, sampleRate: nat): nat
    requires channels > 0 && sampleRate > 0
    decreases |lens|
  {
    if lens == [] then clock
    else ClockAfter(NextClock(clock, lens[0], channels, sampleRate), lens[1..], channels, sampleRate)
  }

  /** The whole frames counted by the clock over a sequence of blocks. */
  function FramesCounted(lens: seq<nat>, channels: nat): nat
    requires channels > 0
    decreases |lens|
  {
    if lens == [] then 0 else lens[0] / channels + FramesCounted(lens[1..], channels)
  }

  // ---------------------------------------------------------------------
  // Division facts used by the proofs below.

  lemma MulMono(a: nat, b: nat, m: nat)
    requires a <= b
    ensures a * m <= b * m
  {
    assert b * m == a * m + (b - a) * m;
  }

  /** `q` is the quotient of `n` by `m` when `n` lies in `q`'s frame. */
  lemma DivUnique(n: nat, m: nat, q: nat)
    requires m > 0 && q * m <= n < q * m + m
    ensures n / m == q
  {
    var d := n / m;
    assert d * m <= n < d * m + m;
    if d < q {
      MulMono(d + 1, q, m);
    } else if d > q {
      MulMono(q + 1, d, m);
    }
  }

  /** Reducing a number below the modulus leaves it unchanged. */
  lemma ModOfSmaller(x: nat, m: nat)
    requires m > 0
    ensures x < m ==> x % m == x
  {
    if x < m {
      DivUnique(x, m, 0);
    }
  }

  lemma ModAddLeft(x: nat, y: nat, m: nat)
    requires m > 0
    ensures (x % m + y) % m == (x + y) % m
  {
    var s := x % m + y;
    assert x == (x / m) * m + x % m;
    assert s == (s / m) * m + s % m;
    assert x + y == (x / m + s / m) * m + s % m;
    DivUnique(x + y, m, x / m + s / m);
  }

  // ---------------------------------------------------------------------
  // Properties of a filled block.

  /** Removing `m` from `k >= m` lowers its quotient by `m` by exactly one. */
  lemma DivFrameShift(k: nat, m: nat)
    requires m > 0 && k >= m
    ensures k / m == (k - m) / m + 1
  {
    var q := (k - m) / m;
    assert q * m <= k - m < q * m + m;
    assert (q + 1) * m == q * m + m;
    DivUnique(k, m, q + 1);
  }

  /** The last element of a buffer whose length is not a multiple of `m`
      lies in frame `len / m`, the partial one. */
  lemma LastInPartialFrame(len: nat, m: nat)
    requires m > 0 && len % m != 0
    ensures len > 0 && (len - 1) / m == len / m
  {
    var q := len / m;
    assert len == q * m + len % m;
    DivUnique(len - 1, m, q);
  }

  /** One unfolding of `Render`: the first chunk holds the sample of time
      `t`, the rest is the block rendered from `t + 1`. */
  lemma RenderStep(wave: real -> real, f: real, a: real, t: nat,
                   sampleRate: nat, channels: nat, len: nat, k: nat)
    requires sampleRate > 0 && channels > 0 && k < len
    ensures k < channels ==>
              Render(wave, f, a, t, sampleRate, channels, len)[k] == Sample(wave, f, a, t, sampleRate)
    ensures k >= channels ==>
              Render(wave, f, a, t, sampleRate, channels, len)[k]
              == Render(wave, f, a, t + 1, sampleRate, channels, len - channels)[k - channels]
  {
  }

  /** Element `k` of a block belongs to frame `k / channels` and carries that
      frame's sample, taken at time index `t + k / channels`. */
  lemma {:induction false} RenderAt(wave: real -> real, f: real, a: real, t: nat,
                                    sampleRate: nat, channels: nat, len: nat, k: nat)
    requires sampleRate > 0 && channels > 0 && k < len
    ensures Render(wave, f, a, t, sampleRate, channels, len)[k]
            == Sample(wave, f, a, t + k / channels, sampleRate)
    decreases len
  {
    RenderStep(wave, f, a, t, sampleRate, channels, len, k);
    if k < channels {
      DivUnique(k, channels, 0);
    } else {
      RenderAt(wave, f, a, t + 1, sampleRate, channels, len - channels, k - channels);
      DivFrameShift(k, channels);
    }
  }

  /** A buffer holding, at every position, the sample of that position's
      frame is the rendered block. */
  lemma RenderPointwise(s: seq<real>, wave: real -> real, f: real, a: real, t: nat,
                        sampleRate: nat, channels: nat)
    requires sampleRate > 0 && channels > 0
    requires forall k :: 0 <= k < |s| ==> s[k] == Sample(wave, f, a, t + k / channels, sampleRate)
    ensures s == Render(wave, f, a, t, sampleRate, channels, |s|)
  {
    var r := Render(wave, f, a, t, sampleRate, channels, |s|);
    forall k | 0 <= k < |s|
      ensures s[k] == r[k]
    {
      RenderAt(wave, f, a, t, sampleRate, channels, |s|, k);
    }
  }

  /** Rendering `n <= channels` more elements after `i` whole frames appends
      a (possibly partial) frame holding the sample of time `t + i`. */
  lemma {:induction false} RenderAppendFrame(wave: real -> real, f: real, a: real, t: nat,
                                             sampleRate: nat, channels: nat, i: nat, lo: nat, n: nat)
    requires sampleRate > 0 && channels > 0 && lo == i * channels && n <= channels
    ensures Render(wave, f, a, t, sampleRate, channels, lo + n)
            == Render(wave, f, a, t, sampleRate, channels, lo) + Broadcast(Sample(wave, f, a, t + i, sampleRate), n)
    decreases i
  {
    if i == 0 {
      assert Render(wave, f, a, t + 1, sampleRate, channels, 0) == [];
    } else {
      assert lo == (i - 1) * channels + channels;
      RenderAppendFrame(wave, f, a, t + 1, sampleRate, channels, i - 1, lo - channels, n);
      assert Render(wave, f, a, t, sampleRate, channels, lo + n)
             == Broadcast(Sample(wave, f, a, t, sampleRate), channels)
                + Render(wave, f, a, t + 1, sampleRate, channels, lo - channels + n);
    }
  }

  /** Channel broadcast: all samples of one frame are equal. */
  lemma FrameBroadcast(wave: real -> real, f: real, a: real, t: nat, sampleRate: nat,
                       channels: nat, len: nat, k1: nat, k2: nat)
    requires sampleRate > 0 && channels > 0 && k1 < len && k2 < len
    requires k1 / channels == k2 / channels
    ensures Render(wave, f, a, t, sampleRate, channels, len)[k1]
            == Render(wave, f, a, t, sampleRate, channels, len)[k2]
  {
    RenderAt(wave, f, a, t, sampleRate, channels, len, k1);
    RenderAt(wave, f, a, t, sampleRate, channels, len, k2);
  }

  /** Frame `i` starts at element `i * channels` and uses time index `t + i`:
      one time index per frame, consecutive from the clock. */
  lemma FrameTime(wave: real -> real, f: real, a: real, t: nat, sampleRate: nat,
                  channels: nat, len: nat, i: nat)
    requires sampleRate > 0 && channels > 0 && i * channels < len
    ensures Render(wave, f, a, t, sampleRate, channels, len)[i * channels]
            == Sample(wave, f, a, t + i, sampleRate)
  {
    RenderAt(wave, f, a, t, sampleRate, channels, len, i * channels);
    DivUnique(i * channels, channels, i);
  }

  /** A block rendered with amplitude zero is silent. */
  lemma MutedBlockIsSilent(wave: real -> real, f: real, t: nat, sampleRate: nat,
                           channels: nat, len: nat)
    requires sampleRate > 0 && channels > 0
    ensures forall k :: 0 <= k < len ==> Render(wave, f, 0.0, t, sampleRate, channels, len)[k] == 0.0
  {
    forall k | 0 <= k < len
      ensures Render(wave, f, 0.0, t, sampleRate, channels, len)[k] == 0.0
    {
      RenderAt(wave, f, 0.0, t, sampleRate, channels, len, k);
    }
  }

  /** When `len` is not a multiple of `channels` the trailing partial frame is
      still written, with the sample of frame `len / channels`; the clock is
      advanced only by `len / channels`, so when it does not wrap, the next
      block starts at the very time index that partial frame used. */
  lemma TrailingPartialFrame(wave: real -> real, f: real, a: real, t: nat, sampleRate: nat,
                             channels: nat, len: nat)
    requires sampleRate > 0 && channels > 0 && len % channels != 0
    ensures Render(wave, f, a, t, sampleRate, channels, len)[len - 1]
            == Sample(wave, f, a, t + len / channels, sampleRate)
    ensures t + len / channels < sampleRate ==>
              Render(wave, f, a, t, sampleRate, channels, len)[len - 1]
              == Sample(wave, f, a, NextClock(t, len, channels, sampleRate), sampleRate)
  {
    RenderAt(wave, f, a, t, sampleRate, channels, len, len - 1);
    LastInPartialFrame(len, channels);
  }

  /** Over any sequence of blocks the clock equals the number of whole frames
      counted so far, reduced modulo the sample rate. */
  lemma {:induction false} ClockTracksFrames(clock: nat, lens: seq<nat>, channels: nat,
                                             sampleRate: nat)
    requires channels > 0 && sampleRate > 0 && clock < sampleRate
    ensures ClockAfter(clock, lens, channels, sampleRate)
            == (clock + FramesCounted(lens, channels)) % sampleRate
    decreases |lens|
  {
    if lens == [] {
      DivUnique(clock, sampleRate, 0);
    } else {
      var next := NextClock(clock, lens[0], channels, sampleRate);
      var rest := FramesCounted(lens[1..], channels);
      ClockTracksFrames(next, lens[1..], channels, sampleRate);
      ModAddLeft(clock + lens[0] / channels, rest, sampleRate);
    }
  }

  // ---------------------------------------------------------------------
  // The callback.

  /** The inner loop of the callback: the same sample `y` goes into every
      slot `lo .. hi` of one frame, and nothing else is touched. */
  method WriteFrame(data: array<real>, lo: nat, hi: nat, y: real)
    requires lo <= hi <= data.Length
    modifies data
    ensures data[..hi] == old(data[..lo]) + Broadcast(y, hi - lo)
    ensures data[hi..] == old(data[hi..])
  {
    var j := lo;
    while j < hi
      invariant lo <= j <= hi
      invariant data[..j] == old(data[..lo]) + Broadcast(y, j - lo)
      invariant data[j..] == old(data[j..])
    {
      data[j] := y;
      assert data[..j + 1] == data[..j] + [y];
      j := j + 1;
    }
  }

  /** The `fill_block` closure with the state it captures: the shared
      parameters, the stream's sample rate and channel count, and the running
      sample clock. `wave` is the sine function, kept abstract. */
  class BlockFiller {
    const params: AudioParams
    const wave: real -> real
    const sampleRate: nat
    const channels: nat
    var sampleClock: nat

    ghost predicate Valid()
      reads this
    {
      sampleRate > 0 && sampleClock < sampleRate
    }

    constructor (params: AudioParams, wave: real -> real, sampleRate: nat, channels: nat)
      requires sampleRate > 0
      ensures Valid()
      ensures this.params == params && this.wave == wave
      ensures this.sampleRate == sampleRate && this.channels == channels
      ensures sampleClock == 0
    {
      this.params := params;
      this.wave := wave;
      this.sampleRate := sampleRate;
      this.channels := channels;
      sampleClock := 0;
    }

    /** Fills `data` with one block. The parameters are read once, every
        element of `data` is overwritten with the sample of its frame, and the
        clock advances by the whole frames of the block. With zero channels
        the chunking panics: nothing is written (`ok` is false). */
    method Fill(data: array<real>) returns (ok: bool)
      requires Valid()
      modifies this`sampleClock, data
      ensures Valid()
      ensures ok <==> channels > 0
      ensures ok ==> data[..] == Render(wave, params.frequency, params.amplitude,
                                        old(sampleClock), sampleRate, channels, data.Length)
      ensures ok ==> sampleClock == NextClock(old(sampleClock), data.Length, channels, sampleRate)
      ensures !ok ==> data[..] == old(data[..]) && sampleClock == old(sampleClock)
    {
      // one snapshot of the shared parameters for the whole block
      var f := params.frequency;
      var a := params.amplitude;
      if channels == 0 {
        return false;
      }
      var clock, len := sampleClock, data.Length;
      var i, lo := 0, 0;
      while lo < len
        invariant lo <= len
        invariant lo < len ==> lo == i * channels
        invariant data[..lo] == Render(wave, f, a, clock, sampleRate, channels, lo)
        decreases len - lo
      {
        var y := Sample(wave, f, a, clock + i, sampleRate);
        var hi := if lo + channels <= len then lo + channels else len;
        WriteFrame(data, lo, hi, y);
        RenderAppendFrame(wave, f, a, clock, sampleRate, channels, i, lo, hi - lo);
        assert hi < len ==> hi == (i + 1) * channels;
        i, lo := i + 1, hi;
      }
      assert data[..] == data[..len];
      sampleClock := (clock + len / channels) % sampleRate;
      ok := true;
    }
  }
}
