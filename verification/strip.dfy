/** The LED strip: its geometry, the bounds-guarded pixel buffer and the context through
    which every effect writes pixels. */
module Strip {
  import opened Colors

  /** Number of addressable LEDs. */
  const NOF_LEDS: nat := 144
  /** Physical length of the strip in millimetres. */
  const STRIP_LENGTH: real := 1000.0
  /** Physical pitch of one LED in millimetres (1000/144, an exact rational). */
  const MM_PER_LED: real := STRIP_LENGTH / NOF_LEDS as real

  /** One guarded pixel write: pixel `index` takes colour `c` when it exists; an index off
      the strip is ignored without error. */
  function SetPixel(px: seq<Color>, index: int, c: Color): (r: seq<Color>)
    ensures |r| == |px|
    ensures forall j :: 0 <= j < |px| ==> r[j] == (if j == index then c else px[j])
  {
    if 0 <= index < |px| then px[index := c] else px
  }

  /** The pixel writes `first`, `first + 1`, ..., `first + count - 1`, in that order, all
      in colour `c`. Exactly the strip pixels inside that range change; indices outside
      the strip are dropped. */
  function PaintRun(px: seq<Color>, first: int, count: nat, c: Color): (r: seq<Color>)
    ensures |r| == |px|
    ensures forall j :: 0 <= j < |px| ==> r[j] == (if first <= j < first + count then c else px[j])
  {
    if count == 0 then px else SetPixel(PaintRun(px, first, count - 1, c), first + count - 1, c)
  }

  /** The whole strip in one colour. */
  function Uniform(c: Color): (r: seq<Color>)
    ensures |r| == NOF_LEDS
  {
    seq(NOF_LEDS, _ => c)
  }

  /** A run painted from pixel 0 over the full strip leaves nothing of the old contents. */
  lemma PaintWholeStrip(px: seq<Color>, c: Color)
    requires |px| == NOF_LEDS
    ensures PaintRun(px, 0, NOF_LEDS, c) == Uniform(c)
  {
    var r := PaintRun(px, 0, NOF_LEDS, c);
    assert forall j :: 0 <= j < NOF_LEDS ==> r[j] == Uniform(c)[j];
  }

  /** A run lying wholly before or wholly after the strip changes no pixel. */
  lemma PaintRunOffStrip(px: seq<Color>, first: int, count: nat, c: Color)
    requires first + count <= 0 || |px| <= first
    ensures PaintRun(px, first, count, c) == px
  {
    var r := PaintRun(px, first, count, c);
    assert forall j :: 0 <= j < |px| ==> r[j] == px[j];
  }

  /** The physical-to-logical coordinate transform: the LED whose span
      [n * MM_PER_LED, (n + 1) * MM_PER_LED) holds `position`, i.e. the floor of
      position / MM_PER_LED. The result may be negative or at least NOF_LEDS. */
  function MapPositionToLedNo(position: real): (n: int)
    ensures n as real <= position / MM_PER_LED < n as real + 1.0
    ensures n as real * MM_PER_LED <= position < (n + 1) as real * MM_PER_LED
  {
    (position / MM_PER_LED).Floor
  }

  /** The mapping never moves backwards as the position grows. */
  lemma MapPositionMonotone(a: real, b: real)
    requires a <= b
    ensures MapPositionToLedNo(a) <= MapPositionToLedNo(b)
  {
    assert a / MM_PER_LED <= b / MM_PER_LED;
  }

  /** Half-way along the 1000 mm strip is LED 72. */
  lemma MapMidStrip()
    ensures MapPositionToLedNo(500.0) == 72
  {
    assert 500.0 / MM_PER_LED == 72.0;
  }

  /** The simulated physical strip: one colour per LED. */
  class LedStrip {
    const leds: array<Color>

    constructor (leds: array<Color>)
      ensures this.leds == leds
    {
      this.leds := leds;
    }

    /** Sets pixel `index` when it is on the strip and silently ignores it otherwise. */
    method SetPixelColor(index: int, c: Color)
      modifies leds
      ensures leds[..] == SetPixel(old(leds[..]), index, c)
    {
      if 0 <= index < leds.Length {
        leds[index] := c;
      }
    }
  }

  /** The sole point through which effects write pixels: a strip, the coordinate transform
      and the background colour used to clear the strip. */
  class StripContext {
    const strip: LedStrip
    const clearColor: Color

    constructor (strip: LedStrip)
      ensures this.strip == strip
      ensures clearColor == Color(200.0, 200.0, 200.0)
    {
      this.strip := strip;
      clearColor := Color(200.0, 200.0, 200.0);
    }

    /** The strip has exactly NOF_LEDS pixels. */
    predicate Valid() {
      strip.leds.Length == NOF_LEDS
    }

    /** What the strip currently shows. */
    function Pixels(): seq<Color>
      reads strip.leds
    {
      strip.leds[..]
    }

    method SetPixelColor(index: int, c: Color)
      modifies strip.leds
      ensures Pixels() == SetPixel(old(Pixels()), index, c)
    {
      strip.SetPixelColor(index, c);
    }

    /** Writes the clear colour to every pixel, 0 to NOF_LEDS - 1 in order. */
    method ClearStrip()
      requires Valid()
      modifies strip.leds
      ensures Pixels() == PaintRun(old(Pixels()), 0, NOF_LEDS, clearColor)
      ensures Pixels() == Uniform(clearColor)
    {
      var i := 0;
      while i < NOF_LEDS
        invariant 0 <= i <= NOF_LEDS
        invariant Pixels() == PaintRun(old(Pixels()), 0, i, clearColor)
      {
        strip.SetPixelColor(i, clearColor);
        i := i + 1;
      }
      PaintWholeStrip(old(Pixels()), clearColor);
    }
  }
}
