/**
 * The arithmetic of drawRotarySlider: which frame of a vertical sprite strip
 * shows the knob at a given slider position, which part of the strip that
 * frame occupies, and where in the slider's bounds it is drawn. Integer
 * operations follow C++: `/` and the `(int)` cast truncate toward zero.
 */
module KnobStrip {
  import opened Wrappers

  /** C++ integer division, which rounds the quotient toward zero. */
  function TruncDiv(a: int, b: int): (q: int)
    requires b != 0
    ensures a >= 0 && b > 0 ==> q == a / b
    ensures a >= 0 && b > 0 ==> 0 <= q * b <= a < q * b + b
  {
    if a >= 0 then
      if b > 0 then a / b else -(a / -b)
    else
      if b > 0 then -((-a) / b) else (-a) / (-b)
  }

  /** The C++ `(int)` cast of a floating value: the integer part, toward zero. */
  function Trunc(r: real): (t: int)
    ensures r >= 0.0 ==> t == r.Floor
    ensures r >= 0.0 ==> 0 <= t && t as real <= r < t as real + 1.0
    ensures r < 0.0 ==> t <= 0 && r <= t as real && t as real < r + 1.0
  {
    if r >= 0.0 then r.Floor else -((-r).Floor)
  }

  /** juce::jlimit: `value` kept within [lower, upper], checked against lower first. */
  function JLimit(lower: int, upper: int, value: int): (r: int)
    ensures lower <= upper ==> lower <= r <= upper
    ensures lower <= value <= upper ==> r == value
  {
    if value < lower then lower else if upper < value then upper else value
  }

  /** An image the strip was loaded into: valid images have a positive size. */
  datatype Image = Image(width: int, height: int)

  predicate WellFormed(strip: Option<Image>)
  {
    strip.Some? ==> strip.value.width >= 1 && strip.value.height >= 1
  }

  datatype Rect = Rect(x: int, y: int, width: int, height: int)

  /** `inner` lies entirely within `outer`. */
  predicate Within(inner: Rect, outer: Rect)
  {
    outer.x <= inner.x && inner.x + inner.width <= outer.x + outer.width &&
    outer.y <= inner.y && inner.y + inner.height <= outer.y + outer.height
  }

  /** The number of whole square frames stacked in the strip. */
  function NumFrames(strip: Image): (n: int)
    requires strip.width >= 1
    ensures strip.height >= 0 ==> 0 <= n && n * strip.width <= strip.height < (n + 1) * strip.width
    ensures strip.height >= strip.width ==> n >= 1
  {
    TruncDiv(strip.height, strip.width)
  }

  /** The slider position scaled to the frame range: 0 at the first frame, numFrames - 1 at the last. */
  function Position(numFrames: int, sliderPos: real): real
  {
    sliderPos * (numFrames - 1) as real
  }

  /** The frame shown at `sliderPos`: the truncated scaled position, limited to the frames. */
  function FrameIndex(numFrames: int, sliderPos: real): (i: int)
    ensures numFrames >= 1 ==> 0 <= i < numFrames
  {
    JLimit(0, numFrames - 1, Trunc(Position(numFrames, sliderPos)))
  }

  /** The square frame `frameIndex` of a strip whose frames are `frameWidth` wide. */
  function SourceRect(frameIndex: int, frameWidth: int): (r: Rect)
    ensures r.x == 0 && r.width == r.height == frameWidth
    ensures r.y == frameIndex * frameWidth
  {
    Rect(0, frameIndex * frameWidth, frameWidth, frameWidth)
  }

  /**
   * The largest square that fits in the slider's bounds, centred in them
   * (with the odd pixel, if any, on the right or bottom).
   */
  function DestRect(x: int, y: int, width: int, height: int): (r: Rect)
    ensures r.width == r.height
    ensures r.width == width || r.width == height
    ensures r.width <= width && r.width <= height
    ensures Within(r, Rect(x, y, width, height))
    ensures r.x == x || r.y == y
    ensures 0 <= (x + width) - (r.x + r.width) - (r.x - x) <= 1
    ensures 0 <= (y + height) - (r.y + r.height) - (r.y - y) <= 1
  {
    var knobSize := if width < height then width else height;
    Rect(x + TruncDiv(width - knobSize, 2), y + TruncDiv(height - knobSize, 2), knobSize, knobSize)
  }

  /** What drawRotarySlider draws: a frame of the strip, or JUCE's default knob. */
  datatype KnobDrawing = DefaultRotary | Sprite(source: Rect, dest: Rect)

  /** drawRotarySlider as written: any valid strip image is used as a sprite strip. */
  function DrawRotarySliderAsWritten(
    strip: Option<Image>, x: int, y: int, width: int, height: int, sliderPos: real): (d: KnobDrawing)
    requires WellFormed(strip)
    ensures d.DefaultRotary? <==> strip.None?
  {
    if strip.Some? then
      var numFrames := NumFrames(strip.value);
      var frameIndex := FrameIndex(numFrames, sliderPos);
      Sprite(SourceRect(frameIndex, strip.value.width), DestRect(x, y, width, height))
    else
      DefaultRotary
  }

  /**
   * drawRotarySlider with the strip required to hold at least one whole
   * frame: a strip less tall than it is wide falls back to the default knob,
   * as an invalid image does. The frame drawn always lies inside the strip.
   */
  function DrawRotarySlider(
    strip: Option<Image>, x: int, y: int, width: int, height: int, sliderPos: real): (d: KnobDrawing)
    requires WellFormed(strip)
    ensures d.DefaultRotary? <==> strip.None? || strip.value.height < strip.value.width
    ensures d.Sprite? ==> Within(d.source, Rect(0, 0, strip.value.width, strip.value.height))
    ensures d.Sprite? ==> Within(d.dest, Rect(x, y, width, height))
    ensures d.Sprite? ==> d.dest.width == d.dest.height == (if width < height then width else height)
    ensures d.Sprite? ==>
      d.source == SourceRect(FrameIndex(NumFrames(strip.value), sliderPos), strip.value.width)
    ensures d.Sprite? ==> d.dest == DestRect(x, y, width, height)
  {
    if strip.Some? && NumFrames(strip.value) >= 1 then
      var numFrames := NumFrames(strip.value);
      var frameIndex := FrameIndex(numFrames, sliderPos);
      SourceRectInsideStrip(strip.value, sliderPos);
      Sprite(SourceRect(frameIndex, strip.value.width), DestRect(x, y, width, height))
    else
      DefaultRotary
  }

  // ---------------------------------------------------------------------------
  // Properties of the frame mapping

  lemma TruncMonotone(a: real, b: real)
    requires a <= b
    ensures Trunc(a) <= Trunc(b)
  {
  }

  lemma JLimitMonotone(lower: int, upper: int, u: int, v: int)
    requires lower <= upper && u <= v
    ensures JLimit(lower, upper, u) <= JLimit(lower, upper, v)
  {
  }

  lemma LimitedTruncMonotone(upper: int, a: real, b: real)
    requires 0 <= upper && a <= b
    ensures JLimit(0, upper, Trunc(a)) <= JLimit(0, upper, Trunc(b))
  {
    TruncMonotone(a, b);
    JLimitMonotone(0, upper, Trunc(a), Trunc(b));
  }

  /** A higher slider position never shows an earlier frame. */
  lemma FrameIndexMonotone(numFrames: int, p1: real, p2: real)
    requires numFrames >= 1
    requires p1 <= p2
    ensures FrameIndex(numFrames, p1) <= FrameIndex(numFrames, p2)
  {
    PositionMonotone(numFrames, p1, p2);
    LimitedTruncMonotone(numFrames - 1, Position(numFrames, p1), Position(numFrames, p2));
  }

  /** The ends of the slider show the first and the last frame; a one-frame strip always shows frame 0. */
  lemma FrameIndexEnds(numFrames: int, sliderPos: real)
    requires numFrames >= 1
    ensures FrameIndex(numFrames, 0.0) == 0
    ensures FrameIndex(numFrames, 1.0) == numFrames - 1
    ensures FrameIndex(1, sliderPos) == 0
  {
  }

  /** On the slider's range [0, 1] the truncating cast is the floor. */
  lemma TruncIsFloorOnSliderRange(numFrames: int, sliderPos: real)
    requires numFrames >= 1 && 0.0 <= sliderPos <= 1.0
    ensures FrameIndex(numFrames, sliderPos) == Position(numFrames, sliderPos).Floor
  {
    var k := (numFrames - 1) as real;
    assert 0.0 <= Position(numFrames, sliderPos) <= k by {
      MulNonNegative(sliderPos, k);
      MulNonNegative(1.0 - sliderPos, k);
      assert k - Position(numFrames, sliderPos) == (1.0 - sliderPos) * k;
    }
  }

  lemma MulNonNegative(a: real, b: real)
    requires 0.0 <= a && 0.0 <= b
    ensures 0.0 <= a * b
  {
  }

  /** The frame drawn from a strip of at least one frame lies inside the strip image. */
  lemma SourceRectInsideStrip(strip: Image, sliderPos: real)
    requires strip.width >= 1 && strip.height >= strip.width
    ensures var r := SourceRect(FrameIndex(NumFrames(strip), sliderPos), strip.width);
      Within(r, Rect(0, 0, strip.width, strip.height))
  {
    var n := NumFrames(strip);
    var i := FrameIndex(n, sliderPos);
    var w := strip.width;
    FrameFitsBelow(i, n, w);
  }

  /** Frame `i` of `n` frames of height `w` starts at or below 0 and ends by frame `n`'s start. */
  lemma FrameFitsBelow(i: int, n: int, w: int)
    requires 0 <= i < n && w >= 1
    ensures 0 <= i * w && i * w + w <= n * w
  {
    assert (i + 1) * w <= n * w by {
      assert n * w == (i + 1) * w + (n - i - 1) * w;
      assert (n - i - 1) * w >= 0;
    }
  }

  lemma PositionMonotone(numFrames: int, p1: real, p2: real)
    requires numFrames >= 1 && p1 <= p2
    ensures Position(numFrames, p1) <= Position(numFrames, p2)
  {
    var k := (numFrames - 1) as real;
    assert Position(numFrames, p2) - Position(numFrames, p1) == (p2 - p1) * k;
  }

  /** Whenever the strip holds a frame, the corrected drawing is the drawing as written. */
  lemma CorrectedAgreesWithWritten(
    strip: Option<Image>, x: int, y: int, width: int, height: int, sliderPos: real)
    requires WellFormed(strip)
    requires strip.Some? ==> strip.value.height >= strip.value.width
    ensures DrawRotarySlider(strip, x, y, width, height, sliderPos) ==
      DrawRotarySliderAsWritten(strip, x, y, width, height, sliderPos)
  {
  }

  /**
   * As written, a strip wider than it is tall has no whole frame; jlimit is
   * then asked to keep the index in [0, -1] and yields -1, so the source
   * rectangle starts one frame above the image.
   */
  lemma WideStripDrawsAboveImage()
    ensures var d := DrawRotarySliderAsWritten(Some(Image(64, 32)), 0, 0, 50, 50, 0.5);
      d.Sprite? && d.source == Rect(0, -64, 64, 64) &&
      !Within(d.source, Rect(0, 0, 64, 32))
  {
    assert NumFrames(Image(64, 32)) == 0;
    assert Trunc(0.5 * (-1) as real) == 0;
  }

  /**
   * At the top of the slider range the cast yields -1 and jlimit lifts it to
   * frame 0, which still overhangs the bottom of a strip less tall than a frame.
   */
  lemma WideStripAtOneOverhangs()
    ensures var d := DrawRotarySliderAsWritten(Some(Image(64, 32)), 0, 0, 50, 50, 1.0);
      d.Sprite? && d.source == Rect(0, 0, 64, 64) &&
      !Within(d.source, Rect(0, 0, 64, 32))
  {
    assert NumFrames(Image(64, 32)) == 0;
    assert Trunc(1.0 * (-1) as real) == -1;
  }
}
