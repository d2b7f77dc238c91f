/** The animated effects drawn on the strip: two kinds of moving segment ("worms") and a
    background wave. Each effect advances its own state in `Update` and overwrites the
    pixels it covers in `Draw`. */
module Effects {
  import opened Colors
  import opened Strip

  /** The trigonometry the wave needs, supplied by the host: a sine bounded by one and a
      positive value for pi. Nothing else about either is assumed. */
  datatype Trig = Trig(sin: real -> real, pi: real) {
    ghost predicate Valid() {
      pi > 0.0 && forall x :: -1.0 <= sin(x) <= 1.0
    }
  }

  function Abs(x: real): real { if x < 0.0 then -x else x }

  /** Millimetres covered in `progress` milliseconds at `speed` millimetres per second. */
  function Travel(progress: real, speed: real): real {
    progress * speed / 1000.0
  }

  /** Position beyond which a worm of `length` LEDs turns round or starts again: the strip
      length plus the worm's own length in millimetres. */
  function Threshold(length: nat): real {
    STRIP_LENGTH + length as real * MM_PER_LED
  }

  /** Sum of a sequence of frame durations. */
  function Total(steps: seq<real>): real {
    if steps == [] then 0.0 else steps[0] + Total(steps[1..])
  }

  // ---------------------------------------------------------------------------------------
  // Drawing a worm

  /** A worm whose position is past the threshold, or below zero, covers no strip pixel:
      its trailing run lies wholly beyond one end of the strip. */
  lemma TrailOffStripPastThreshold(px: seq<Color>, position: real, length: nat, c: Color)
    requires |px| == NOF_LEDS
    requires position > Threshold(length) || position < 0.0
    ensures PaintRun(px, MapPositionToLedNo(position) - length, length, c) == px
  {
    var n := MapPositionToLedNo(position);
    if position < 0.0 {
      assert n as real * MM_PER_LED < 0.0;
    } else {
      assert position / MM_PER_LED > Threshold(length) / MM_PER_LED;
      assert Threshold(length) / MM_PER_LED == NOF_LEDS as real + length as real;
      assert n >= NOF_LEDS + length;
    }
    PaintRunOffStrip(px, n - length, length, c);
  }

  /** A worm at position 0, where every worm of the animation starts, covers no strip
      pixel either: its run ends just before LED 0. */
  lemma TrailHiddenAtStart(px: seq<Color>, length: nat, c: Color)
    ensures PaintRun(px, MapPositionToLedNo(0.0) - length, length, c) == px
  {
    assert MapPositionToLedNo(0.0) == 0;
    PaintRunOffStrip(px, 0 - length as int, length, c);
  }

  /** The trailing run of `length` pixels that ends just before the LED under `position`,
      written one pixel at a time from its far end. */
  method DrawTrail(ctx: StripContext, position: real, length: nat, color: Color)
    modifies ctx.strip.leds
    ensures ctx.Pixels() == PaintRun(old(ctx.Pixels()), MapPositionToLedNo(position) - length, length, color)
  {
    var ledNo := MapPositionToLedNo(position);
    for i := 0 to length
      invariant ctx.Pixels() == PaintRun(old(ctx.Pixels()), ledNo - length, i, color)
    {
      ctx.SetPixelColor(ledNo + i - length, color);
    }
  }

  // ---------------------------------------------------------------------------------------
  // Looping worm: runs off the far end, then starts again at position 0

  /** One update of a looping worm's position. */
  function LoopingStep(position: real, speed: real, length: nat, progress: real): (r: real)
    ensures r <= Threshold(length)
    ensures r == position + Travel(progress, speed) || (r == 0.0 && position + Travel(progress, speed) > Threshold(length))
    ensures position + Travel(progress, speed) <= Threshold(length) ==> r == position + Travel(progress, speed)
  {
    var next := position + Travel(progress, speed);
    if next > Threshold(length) then 0.0 else next
  }

  /** The position after a series of updates. */
  function LoopingRun(position: real, speed: real, length: nat, steps: seq<real>): real
    decreases |steps|
  {
    if steps == [] then position
    else LoopingRun(LoopingStep(position, speed, length, steps[0]), speed, length, steps[1..])
  }

  lemma TotalNonNegative(steps: seq<real>)
    requires forall k :: 0 <= k < |steps| ==> 0.0 <= steps[k]
    ensures 0.0 <= Total(steps)
  {
    if steps != [] {
      TotalNonNegative(steps[1..]);
    }
  }

  lemma TravelAdds(a: real, b: real, speed: real)
    ensures Travel(a + b, speed) == Travel(a, speed) + Travel(b, speed)
  {
    assert (a + b) * speed == a * speed + b * speed;
  }

  /** Until it reaches the threshold a looping worm simply accumulates its travel: after
      frames of total duration T it stands at position + T * speed / 1000. */
  lemma {:induction false} LoopingRunAccumulates(position: real, speed: real, length: nat, steps: seq<real>)
    requires 0.0 <= speed
    requires forall k :: 0 <= k < |steps| ==> 0.0 <= steps[k]
    requires position + Travel(Total(steps), speed) <= Threshold(length)
    ensures LoopingRun(position, speed, length, steps) == position + Travel(Total(steps), speed)
    decreases |steps|
  {
    if steps != [] {
      var rest := steps[1..];
      TotalNonNegative(rest);
      TravelAdds(steps[0], Total(rest), speed);
      assert 0.0 <= Travel(Total(rest), speed) by {
        assert 0.0 <= Total(rest) * speed;
      }
      assert LoopingStep(position, speed, length, steps[0]) == position + Travel(steps[0], speed);
      LoopingRunAccumulates(position + Travel(steps[0], speed), speed, length, rest);
    }
  }

  /** A worm that runs off the far end and starts again at position 0. */
  class LoopingWorm {
    var position: real
    const speed: real
    const length: nat
    const color: Color

    constructor (startPosition: real, speed: real, length: nat, color: Color)
      ensures position == startPosition && this.speed == speed
      ensures this.length == length && this.color == color
    {
      position := startPosition;
      this.speed := speed;
      this.length := length;
      this.color := color;
    }

    /** Advances by the distance travelled in `progress` ms; once past the threshold the
        worm is put back at exactly 0 (any overshoot is discarded). */
    method Update(progress: real)
      modifies this`position
      ensures position == LoopingStep(old(position), speed, length, progress)
      ensures position <= Threshold(length)
    {
      position := position + progress * speed / 1000.0;
      if position > STRIP_LENGTH + length as real * MM_PER_LED {
        position := 0.0;
      }
    }

    method Draw(ctx: StripContext)
      modifies ctx.strip.leds
      ensures ctx.Pixels() == PaintRun(old(ctx.Pixels()), MapPositionToLedNo(position) - length, length, color)
    {
      DrawTrail(ctx, position, length, color);
    }
  }

  // ---------------------------------------------------------------------------------------
  // Bouncing worm: reverses direction at either end

  datatype Motion = Motion(position: real, speed: real)

  /** Outside the span [0, Threshold(length)] a bouncing worm turns round. */
  predicate OutOfBounds(position: real, length: nat) {
    position > Threshold(length) || position < 0.0
  }

  /** One update of a bouncing worm: the position advances and is never clamped; the
      speed changes sign exactly when the new position is out of bounds. */
  function BouncingStep(m: Motion, length: nat, progress: real): (r: Motion)
    ensures r.position == m.position + Travel(progress, m.speed)
    ensures r.speed == (if OutOfBounds(r.position, length) then -m.speed else m.speed)
    ensures Abs(r.speed) == Abs(m.speed)
  {
    var next := m.position + Travel(progress, m.speed);
    Motion(next, if OutOfBounds(next, length) then -m.speed else m.speed)
  }

  /** The speed is flipped whenever the worm is outside, whichever way it is heading. So a
      worm that is further outside than one frame's travel turns round, then turns round
      again on the next frame of the same duration, and is back where it was: with
      frames of equal length it stays outside, and off the strip, for ever. */
  lemma BounceOscillatesOutside(m: Motion, length: nat, progress: real)
    requires m.position - Abs(Travel(progress, m.speed)) > Threshold(length) ||
             m.position + Abs(Travel(progress, m.speed)) < 0.0
    ensures OutOfBounds(BouncingStep(m, length, progress).position, length)
    ensures BouncingStep(BouncingStep(m, length, progress), length, progress) == m
  {
    var m1 := BouncingStep(m, length, progress);
    assert Travel(progress, -m.speed) == -Travel(progress, m.speed);
    assert m1.speed == -m.speed;
  }

  /** One long frame is enough to get there: worm 3 of the animation (speed 300 mm/s,
      3 LEDs), on the strip at 1019 mm, after a 100 ms frame is at 1049 mm heading back,
      and from then on every pair of 16 ms frames returns it to that same state. */
  lemma BounceTrappedAfterLongFrame()
    ensures Motion(1019.0, 300.0).position <= Threshold(3)
    ensures BouncingStep(Motion(1019.0, 300.0), 3, 100.0) == Motion(1049.0, -300.0)
    ensures BouncingStep(BouncingStep(Motion(1049.0, -300.0), 3, 16.0), 3, 16.0) == Motion(1049.0, -300.0)
  {
    BounceOscillatesOutside(Motion(1049.0, -300.0), 3, 16.0);
  }

  /** A worm that reverses direction at either end of its span. */
  class BouncingWorm {
    var position: real
    var speed: real
    const length: nat
    const color: Color

    constructor (startPosition: real, speed: real, length: nat, color: Color)
      ensures position == startPosition && this.speed == speed
      ensures this.length == length && this.color == color
    {
      position := startPosition;
      this.speed := speed;
      this.length := length;
      this.color := color;
    }

    method Update(progress: real)
      modifies this`position, this`speed
      ensures Motion(position, speed) == BouncingStep(Motion(old(position), old(speed)), length, progress)
    {
      position := position + progress * speed / 1000.0;
      if position > STRIP_LENGTH + length as real * MM_PER_LED || position < 0.0 {
        speed := -speed;
      }
    }

    method Draw(ctx: StripContext)
      modifies ctx.strip.leds
      ensures ctx.Pixels() == PaintRun(old(ctx.Pixels()), MapPositionToLedNo(position) - length, length, color)
    {
      DrawTrail(ctx, position, length, color);
    }
  }

  // ---------------------------------------------------------------------------------------
  // Wave: a lightness oscillation running outwards from its origin

  /** The phase after `progress` ms: it falls linearly, by 2 pi per wavelength travelled,
      so with a forward speed it never grows as time passes. */
  function PhaseAfter(baseAngle: real, speed: real, wavelength: real, pi: real, progress: real): (r: real)
    requires wavelength != 0.0
    ensures 0.0 < wavelength && 0.0 <= speed && 0.0 < pi && 0.0 <= progress ==> r <= baseAngle
    ensures 0.0 < wavelength && 0.0 < speed && 0.0 < pi && 0.0 < progress ==> r < baseAngle
  {
    var k := speed / wavelength * 2.0 * pi;
    assert 0.0 < wavelength && 0.0 <= speed && 0.0 < pi && 0.0 <= progress ==> 0.0 <= k * progress by {
      if 0.0 < wavelength && 0.0 <= speed && 0.0 < pi && 0.0 <= progress {
        assert 0.0 <= speed / wavelength;
        assert 0.0 <= k;
      }
    }
    assert 0.0 < wavelength && 0.0 < speed && 0.0 < pi && 0.0 < progress ==> 0.0 < k * progress by {
      if 0.0 < wavelength && 0.0 < speed && 0.0 < pi && 0.0 < progress {
        assert 0.0 < speed / wavelength;
        assert 0.0 < k;
      }
    }
    baseAngle - k * progress / 1000.0
  }

  /** The phase is linear in time: two updates equal one update by their total duration,
      and a zero-length frame changes nothing. */
  lemma PhaseAdditive(baseAngle: real, speed: real, wavelength: real, pi: real, a: real, b: real)
    requires wavelength != 0.0
    ensures PhaseAfter(PhaseAfter(baseAngle, speed, wavelength, pi, a), speed, wavelength, pi, b)
         == PhaseAfter(baseAngle, speed, wavelength, pi, a + b)
    ensures PhaseAfter(baseAngle, speed, wavelength, pi, 0.0) == baseAngle
  {
    var k := speed / wavelength * 2.0 * pi;
    assert k * (a + b) == k * a + k * b;
  }

  /** The angle of the wave at LED `i`: the phase offset by the distance from the origin,
      with its sign chosen on each side of the origin. The sign flip makes the angle depend
      only on the distance from the origin, so the wave is symmetric about it and runs
      outwards on both sides. */
  function WaveAngle(baseAngle: real, origin: real, wavelength: real, pi: real, i: int): (a: real)
    requires wavelength != 0.0
    ensures a == baseAngle + Abs(i as real * MM_PER_LED - origin) / wavelength * 2.0 * pi
  {
    var position := i as real * MM_PER_LED;
    var angleOffset := (origin - position) / wavelength * 2.0 * pi;
    if position < origin then
      assert Abs(position - origin) == origin - position;
      baseAngle + angleOffset
    else
      assert Abs(position - origin) == -(origin - position);
      assert -(origin - position) / wavelength == -((origin - position) / wavelength);
      baseAngle - angleOffset
  }

  /** The lightness for a given sine value: for a sine in [-1, 1] it stays within
      [minLightness, minLightness + amplitude], reaching the ends at sine -1 and 1. */
  function Lightness(minLightness: real, amplitude: real, sine: real): (l: real)
    ensures 0.0 <= amplitude && -1.0 <= sine <= 1.0 ==> minLightness <= l <= minLightness + amplitude
    ensures sine == -1.0 ==> l == minLightness
    ensures sine == 1.0 ==> l == minLightness + amplitude
  {
    assert 0.0 <= amplitude && -1.0 <= sine <= 1.0 ==>
      0.0 <= amplitude / 2.0 * ((sine + 1.0) / 2.0) <= amplitude / 2.0 by {
      if 0.0 <= amplitude && -1.0 <= sine <= 1.0 {
        Scale(amplitude / 2.0, (sine + 1.0) / 2.0);
      }
    }
    assert amplitude / 2.0 * sine + amplitude / 2.0 == amplitude / 2.0 * (sine + 1.0);
    assert amplitude / 2.0 * (sine + 1.0) == 2.0 * (amplitude / 2.0 * ((sine + 1.0) / 2.0));
    minLightness + amplitude / 2.0 * sine + amplitude / 2.0
  }

  /** The colour of LED `i`: fully saturated hue 1/2 at the wave's lightness there. */
  function WavePixel(baseAngle: real, origin: real, wavelength: real, minLightness: real,
                     amplitude: real, trig: Trig, i: int): Color
    requires wavelength != 0.0
  {
    HslToRgb(180.0 / 360.0, 1.0,
             Lightness(minLightness, amplitude, trig.sin(WaveAngle(baseAngle, origin, wavelength, trig.pi, i))))
  }

  /** What a wave draw leaves on the strip. */
  function WaveImage(baseAngle: real, origin: real, wavelength: real, minLightness: real,
                     amplitude: real, trig: Trig): (img: seq<Color>)
    requires wavelength != 0.0
    ensures |img| == NOF_LEDS
  {
    seq(NOF_LEDS, i => WavePixel(baseAngle, origin, wavelength, minLightness, amplitude, trig, i))
  }

  /** With a lightness range inside [0, 1] every wave pixel is a displayable shade of cyan
      (green equal to blue, every channel in [0, 255]), whatever the phase. */
  lemma WaveImageCyan(baseAngle: real, origin: real, wavelength: real, minLightness: real,
                      amplitude: real, trig: Trig)
    requires wavelength != 0.0 && trig.Valid()
    requires 0.0 <= minLightness && 0.0 <= amplitude && minLightness + amplitude <= 1.0
    ensures forall j :: 0 <= j < NOF_LEDS ==>
      var c := WaveImage(baseAngle, origin, wavelength, minLightness, amplitude, trig)[j];
      InChannelRange(c) && c.green == c.blue
  {
    forall j | 0 <= j < NOF_LEDS
      ensures var c := WaveImage(baseAngle, origin, wavelength, minLightness, amplitude, trig)[j];
              InChannelRange(c) && c.green == c.blue
    {
      var l := Lightness(minLightness, amplitude, trig.sin(WaveAngle(baseAngle, origin, wavelength, trig.pi, j)));
      HslToRgbInRange(0.5, 1.0, l);
      CyanShade(l);
    }
  }

  /** The wave's own constants keep its lightness inside [minLightness, maxLightness] at
      every LED, whatever the phase. */
  lemma WaveLightnessInRange(w: Wave, trig: Trig, i: int)
    requires trig.Valid()
    ensures var l := Lightness(w.minLightness, w.amplitude,
                               trig.sin(WaveAngle(w.baseAngle, w.origin, w.wavelength, trig.pi, i)));
            w.minLightness <= l <= w.maxLightness
  {
  }

  /** Everything the wave draws is a displayable shade of cyan. */
  lemma WaveImageDisplayable(w: Wave, trig: Trig)
    requires trig.Valid()
    ensures forall j :: 0 <= j < NOF_LEDS ==> InChannelRange(w.Image(trig)[j]) && w.Image(trig)[j].green == w.Image(trig)[j].blue
  {
    WaveImageCyan(w.baseAngle, w.origin, w.wavelength, w.minLightness, w.amplitude, trig);
  }

  /** The background wave effect. */
  class Wave {
    const wavelength: real := 250.0  // mm
    const speed: real := 500.0  // mm/s
    const minLightness: real := 0.4
    const maxLightness: real := 0.9
    const amplitude: real := maxLightness - minLightness
    const origin: real := 0.0  // mm, where the wave starts
    var baseAngle: real

    constructor ()
      ensures baseAngle == 0.0
    {
      baseAngle := 0.0;
    }

    /** What drawing the wave now would leave on the strip. */
    function Image(trig: Trig): (img: seq<Color>)
      reads this
      ensures |img| == NOF_LEDS
    {
      WaveImage(baseAngle, origin, wavelength, minLightness, amplitude, trig)
    }

    /** At 1000 mm/s the phase would run 2 pi per second per metre of wavelength. */
    method Update(progress: real, trig: Trig)
      modifies this`baseAngle
      ensures baseAngle == PhaseAfter(old(baseAngle), speed, wavelength, trig.pi, progress)
    {
      baseAngle := baseAngle - speed / wavelength * 2.0 * trig.pi * progress / 1000.0;
    }

    /** Overwrites every pixel of the strip with the wave's colour there. */
    method Draw(ctx: StripContext, trig: Trig)
      requires ctx.Valid()
      modifies ctx.strip.leds
      ensures ctx.Pixels() == Image(trig)
    {
      ghost var img := Image(trig);
      for i := 0 to NOF_LEDS
        invariant |ctx.Pixels()| == NOF_LEDS
        invariant ctx.Pixels()[..i] == img[..i]
        invariant ctx.Pixels()[i..] == old(ctx.Pixels())[i..]
      {
        var angle := WaveAngle(baseAngle, origin, wavelength, trig.pi, i);
        var value := Lightness(minLightness, amplitude, trig.sin(angle));
        var rgb := HslToRgb(180.0 / 360.0, 1.0, value);
        ctx.SetPixelColor(i, rgb);
        assert ctx.Pixels()[..i + 1] == img[..i + 1];
      }
    }
  }
}
