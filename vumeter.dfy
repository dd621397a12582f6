/** The integer bookkeeping of `src/audio_vumeter.rs`: the stored level
    sample, the gradient cache keyed by the widget height, and the horizontal
    layout of the channel bars. Pixel heights, dB normalisation, gradient
    colours and the cairo calls are floating-point drawing and are not part
    of this model. */
module VuMeter {
  import opened Wrappers

  /** One `level` sample per channel. The values are only stored and passed
      on here, so `real` stands in for `f64`. */
  datatype LevelData = LevelData(rms: seq<real>, peak: seq<real>, decay: seq<real>)

  /** The four gradients the meter paints with; each is built for a height. */
  datatype BarKind = BackgroundBar | RmsBar | PeakBar | DecayBar
  datatype Gradient = Gradient(kind: BarKind, height: int)

  /** Pixels between two channels. */
  const MARGIN: int := 2

  const DIVIDE_BY_ZERO_PANIC: string := "attempt to divide by zero"
  const INDEX_PANIC: string := "index out of bounds"

  /** Rust's `/` on integers, which truncates toward zero; only positive
      divisors occur here. */
  function TruncDiv(a: int, n: int): (q: int)
    requires n > 0
    ensures a >= 0 ==> 0 <= q && q * n <= a
    ensures a < 0 ==> q <= 0 && a <= q * n
  {
    if a >= 0 then a / n else -((-a) / n)
  }

  /** `channel_width`: the width left after the margins, shared equally. */
  function ChannelWidth(width: int, channels: int): (cw: int)
    requires channels > 0
    ensures width >= MARGIN * (channels - 1) ==> cw >= 0 && channels * cw + MARGIN * (channels - 1) <= width
  {
    TruncDiv(width - MARGIN * (channels - 1), channels)
  }

  /** The left edge of channel `c`. */
  function ChannelStart(c: int, channelWidth: int): (x: int)
    ensures x == c * (channelWidth + MARGIN)
    ensures c >= 0 && channelWidth + MARGIN >= 0 ==> x >= 0
  {
    c * channelWidth + c * MARGIN
  }

  /** What one channel occupies: its bars from `x`, `width` wide, then the
      grey margin bar from `marginX`, `MARGIN` wide. */
  datatype ChannelBar = ChannelBar(x: int, width: int, marginX: int)

  /** The bars of all channels, left to right. */
  function Layout(width: int, channels: int): (bars: seq<ChannelBar>)
    requires channels > 0
    ensures |bars| == channels
  {
    var cw := ChannelWidth(width, channels);
    seq(channels, c requires 0 <= c < channels =>
      ChannelBar(ChannelStart(c, cw), cw, ChannelStart(c, cw) + cw))
  }

  /** The result of drawing: nothing stored (`Inhibit(false)`), the bars
      drawn (`Inhibit(true)`), or a panic. */
  datatype DrawResult = NotDrawn | Drawn(bars: seq<ChannelBar>) | DrawPanic(reason: string)

  /** What drawing a stored sample gives: a division by zero without
      channels, an out-of-bounds index when the peak or decay values are
      fewer than the channels, and otherwise one bar per RMS value. */
  function DrawnSample(width: int, d: LevelData): (r: DrawResult)
    ensures r.Drawn? <==> |d.rms| > 0 && |d.peak| >= |d.rms| && |d.decay| >= |d.rms|
    ensures r.Drawn? ==> |r.bars| == |d.rms|
    ensures r == DrawPanic(DIVIDE_BY_ZERO_PANIC) <==> |d.rms| == 0
  {
    var channels := |d.rms|;
    if channels == 0 then DrawPanic(DIVIDE_BY_ZERO_PANIC)
    else if |d.peak| < channels || |d.decay| < channels then DrawPanic(INDEX_PANIC)
    else Drawn(Layout(width, channels))
  }

  /** The channel loop of `on_draw`: the start of each channel, and the
      per-channel indexing of the peak and decay values. */
  method DrawChannels(width: int, d: LevelData) returns (r: DrawResult)
    ensures r == DrawnSample(width, d)
  {
    var channels := |d.rms|;
    if channels == 0 {
      return DrawPanic(DIVIDE_BY_ZERO_PANIC);
    }
    var channelWidth := TruncDiv(width - MARGIN * (channels - 1), channels);
    var bars: seq<ChannelBar> := [];
    for channel := 0 to channels
      invariant |bars| == channel
      invariant channel <= |d.peak| && channel <= |d.decay|
      invariant forall c :: 0 <= c < channel ==> bars[c] == Layout(width, channels)[c]
    {
      if channel >= |d.peak| || channel >= |d.decay| {
        return DrawPanic(INDEX_PANIC);
      }
      var x := channel * channelWidth + channel * MARGIN;
      bars := bars + [ChannelBar(x, channelWidth, x + channelWidth)];
    }
    return Drawn(bars);
  }

  /** Truncating division of a non-negative numerator is floor division; of
      a negative one it rounds up. */
  lemma TruncDivBounds(a: int, n: int)
    requires n > 0
    ensures a >= 0 ==> n * TruncDiv(a, n) <= a < n * TruncDiv(a, n) + n
    ensures a < 0 ==> n * TruncDiv(a, n) - n < a <= n * TruncDiv(a, n)
  {
    if a < 0 {
      var q := (-a) / n;
      assert n * q <= -a < n * q + n;
      assert TruncDiv(a, n) == -q;
      assert n * TruncDiv(a, n) == -(n * q);
    }
  }

  /** With a non-negative allocated width every channel is at least -1 wide,
      and once the margins fit, the channels and margins fill the width
      with fewer than `channels` pixels to spare. */
  lemma ChannelWidthBounds(width: int, channels: int)
    requires channels > 0 && width >= 0
    ensures ChannelWidth(width, channels) >= -1
    ensures width >= MARGIN * (channels - 1) ==>
      var used := channels * ChannelWidth(width, channels) + MARGIN * (channels - 1);
      ChannelWidth(width, channels) >= 0 && used <= width < used + channels
  {
    var a := width - MARGIN * (channels - 1);
    var cw := ChannelWidth(width, channels);
    TruncDivBounds(a, channels);
    if a < 0 {
      // a >= -2 * (channels - 1), and channels * cw - channels < a.
      assert channels * cw > -2 * channels;
    }
  }

  /** Consecutive channels start `channel_width + MARGIN` apart. */
  lemma ChannelStartStep(c: int, cw: int)
    ensures ChannelStart(c + 1, cw) == ChannelStart(c, cw) + cw + MARGIN
  {
  }

  /** When a channel is at least `-MARGIN` wide (always so for a
      non-negative width), the bars and margin of an earlier channel end no
      later than a later channel starts. */
  lemma {:induction false} ChannelsDoNotOverlap(c: int, d: int, cw: int)
    requires 0 <= c < d && cw + MARGIN >= 0
    ensures ChannelStart(c, cw) + cw + MARGIN <= ChannelStart(d, cw)
    decreases d - c
  {
    ChannelStartStep(d - 1, cw);
    if c < d - 1 {
      ChannelsDoNotOverlap(c, d - 1, cw);
    }
  }

  /** Once the margins fit, the last channel's bars end inside the width. */
  lemma LastChannelFits(width: int, channels: int)
    requires channels > 0 && width >= MARGIN * (channels - 1)
    ensures var cw := ChannelWidth(width, channels);
      ChannelStart(channels - 1, cw) + cw <= width
  {
    ChannelWidthBounds(width, channels);
    var cw := ChannelWidth(width, channels);
    assert ChannelStart(channels - 1, cw) + cw == channels * cw + MARGIN * (channels - 1);
  }

  class VuMeter {
    var data: Option<LevelData>
    var cachedHeight: Option<int>
    var bgGradient: Option<Gradient>
    var rmsGradient: Option<Gradient>
    var peakGradient: Option<Gradient>
    var decayGradient: Option<Gradient>
    /** Redraws requested with `queue_draw`. */
    var redrawRequests: nat

    constructor ()
      ensures data.None? && cachedHeight.None? && redrawRequests == 0
      ensures bgGradient.None? && rmsGradient.None? && peakGradient.None? && decayGradient.None?
    {
      data, cachedHeight, redrawRequests := None, None, 0;
      bgGradient, rmsGradient, peakGradient, decayGradient := None, None, None, None;
    }

    /** Whether the gradients are built for `height`. */
    ghost predicate GradientsFor(height: int)
      reads this
    {
      && cachedHeight == Some(height)
      && bgGradient == Some(Gradient(BackgroundBar, height))
      && rmsGradient == Some(Gradient(RmsBar, height))
      && peakGradient == Some(Gradient(PeakBar, height))
      && decayGradient == Some(Gradient(DecayBar, height))
    }

    /** `update`: a copy of the three sequences replaces the stored sample,
        and a redraw is requested. */
    method Update(rms: seq<real>, peak: seq<real>, decay: seq<real>)
      modifies this
      ensures data == Some(LevelData(rms, peak, decay))
      ensures redrawRequests == old(redrawRequests) + 1
      ensures cachedHeight == old(cachedHeight) && bgGradient == old(bgGradient) && rmsGradient == old(rmsGradient)
      ensures peakGradient == old(peakGradient) && decayGradient == old(decayGradient)
    {
      data := Some(LevelData(rms, peak, decay));
      redrawRequests := redrawRequests + 1;
    }

    /** `on_draw` for an allocated `width` and `height`: the gradients are
        rebuilt exactly when the cached height is absent or different, then
        the stored sample, if any, is laid out. */
    method OnDraw(width: int, height: int) returns (r: DrawResult)
      modifies this
      ensures old(cachedHeight) == Some(height) ==>
        cachedHeight == old(cachedHeight) && bgGradient == old(bgGradient) && rmsGradient == old(rmsGradient)
        && peakGradient == old(peakGradient) && decayGradient == old(decayGradient)
      ensures old(cachedHeight) != Some(height) ==> GradientsFor(height)
      ensures data == old(data) && redrawRequests == old(redrawRequests)
      ensures data.None? ==> r == NotDrawn
      ensures data.Some? ==> r == DrawnSample(width, data.value)
    {
      var updateGradients := match cachedHeight
        case Some(h) => h != height
        case None => true;
      if updateGradients {
        cachedHeight := Some(height);
        bgGradient := Some(Gradient(BackgroundBar, height));
        rmsGradient := Some(Gradient(RmsBar, height));
        peakGradient := Some(Gradient(PeakBar, height));
        decayGradient := Some(Gradient(DecayBar, height));
      }
      match data
      case None =>
        r := NotDrawn;
      case Some(d) =>
        r := DrawChannels(width, d);
    }
  }
}
