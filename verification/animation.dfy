/** The animation loop: every frame it advances the effects unless paused, clears the
    strip, then draws the wave (when visible) and the three worms in a fixed order, each
    draw overwriting the pixels it covers. */
module Animation {
  import opened Colors
  import opened Strip
  import opened Effects

  /** A run of pixels in one colour, as a worm draws it. */
  datatype Run = Run(first: int, count: nat, color: Color)

  /** The run a worm at `position` draws: `length` pixels ending just before its LED. */
  function Trail(position: real, length: nat, color: Color): Run {
    Run(MapPositionToLedNo(position) - length, length, color)
  }

  predicate Covers(r: Run, j: int) {
    r.first <= j < r.first + r.count
  }

  /** Paints the runs over the background, first run first. */
  function Composite(background: seq<Color>, runs: seq<Run>): (r: seq<Color>)
    ensures |r| == |background|
    decreases |runs|
  {
    if runs == [] then background
    else
      var top := runs[|runs| - 1];
      PaintRun(Composite(background, runs[..|runs| - 1]), top.first, top.count, top.color)
  }

  /** The colour that should be seen at pixel `j`: that of the last run covering it, or
      the background's when no run does. */
  function TopColor(background: Color, runs: seq<Run>, j: int): Color
    decreases |runs|
  {
    if runs == [] then background
    else if Covers(runs[|runs| - 1], j) then runs[|runs| - 1].color
    else TopColor(background, runs[..|runs| - 1], j)
  }

  /** Compositing never blends: every pixel ends with the colour of the last run that
      covers it, and keeps the background's otherwise. */
  lemma {:induction false} CompositeLastWins(background: seq<Color>, runs: seq<Run>, j: int)
    requires 0 <= j < |background|
    ensures Composite(background, runs)[j] == TopColor(background[j], runs, j)
    decreases |runs|
  {
    if runs != [] {
      CompositeLastWins(background, runs[..|runs| - 1], j);
    }
  }

  /** The draw order of a frame, spelled out: worm 3 over worm 2 over worm 1 over the
      wave when it is visible, over the clear colour. */
  lemma DrawOrder(wave: seq<Color>, clear: Color, waveVisible: bool, t1: Run, t2: Run, t3: Run, j: int)
    requires |wave| == NOF_LEDS && 0 <= j < NOF_LEDS
    ensures Composite(if waveVisible then wave else Uniform(clear), [t1, t2, t3])[j] ==
            if Covers(t3, j) then t3.color
            else if Covers(t2, j) then t2.color
            else if Covers(t1, j) then t1.color
            else if waveVisible then wave[j]
            else clear
  {
    var background := if waveVisible then wave else Uniform(clear);
    CompositeLastWins(background, [t1, t2, t3], j);
    assert [t1, t2, t3][..2] == [t1, t2];
    assert [t1, t2][..1] == [t1];
    assert [t1][..0] == [];
    assert TopColor(background[j], [t1], j) == if Covers(t1, j) then t1.color else background[j];
    assert TopColor(background[j], [t1, t2], j) == if Covers(t2, j) then t2.color else TopColor(background[j], [t1], j);
  }

  /** Compositing three runs is painting them one after the other. */
  lemma CompositeThree(background: seq<Color>, a: Run, b: Run, c: Run)
    ensures Composite(background, [a, b, c]) ==
            PaintRun(PaintRun(PaintRun(background, a.first, a.count, a.color), b.first, b.count, b.color),
                     c.first, c.count, c.color)
  {
    assert [a, b, c][..2] == [a, b];
    assert [a, b][..1] == [a];
    assert [a][..0] == [];
    var one := PaintRun(background, a.first, a.count, a.color);
    assert Composite(background, [a]) == one;
    assert Composite(background, [a, b]) == PaintRun(one, b.first, b.count, b.color);
  }

  /** The whole animation: the strip, its context and the four effects. */
  class AnimationLoop {
    const ctx: StripContext
    const wave1: Wave
    const worm1: LoopingWorm
    const worm2: LoopingWorm
    const worm3: BouncingWorm
    var lastRender: real

    predicate Valid() {
      ctx.Valid() && worm1 != worm2
    }

    /** The frame the effects' current state produces. */
    function Frame(waveVisible: bool, trig: Trig): seq<Color>
      reads wave1, worm1, worm2, worm3
    {
      Composite(if waveVisible then wave1.Image(trig) else Uniform(ctx.clearColor),
                [Trail(worm1.position, worm1.length, worm1.color),
                 Trail(worm2.position, worm2.length, worm2.color),
                 Trail(worm3.position, worm3.length, worm3.color)])
    }

    /** Sets up the effects with their start state, then clears the strip and draws the
        wave once before the first frame. */
    constructor (leds: array<Color>, trig: Trig)
      requires leds.Length == NOF_LEDS
      modifies leds
      ensures Valid() && ctx.strip.leds == leds
      ensures ctx.clearColor == Color(200.0, 200.0, 200.0)
      ensures fresh(wave1) && fresh(worm1) && fresh(worm2) && fresh(worm3)
      ensures worm1.position == 0.0 && worm1.speed == 63.0 && worm1.length == 8 && worm1.color == Color(0.0, 0.0, 255.0)
      ensures worm2.position == 0.0 && worm2.speed == 201.0 && worm2.length == 5 && worm2.color == Color(255.0, 0.0, 0.0)
      ensures worm3.position == 0.0 && worm3.speed == 300.0 && worm3.length == 3 && worm3.color == Color(255.0, 0.0, 255.0)
      ensures wave1.baseAngle == 0.0
      ensures ctx.Pixels() == wave1.Image(trig)
      ensures lastRender == 0.0
    {
      var strip := new LedStrip(leds);
      ctx := new StripContext(strip);
      worm1 := new LoopingWorm(0.0, 63.0, 8, Color(0.0, 0.0, 255.0));
      worm2 := new LoopingWorm(0.0, 201.0, 5, Color(255.0, 0.0, 0.0));
      worm3 := new BouncingWorm(0.0, 300.0, 3, Color(255.0, 0.0, 255.0));
      wave1 := new Wave();
      lastRender := 0.0;
      new;
      ctx.ClearStrip();
      wave1.Draw(ctx, trig);
    }

    /** Advances every effect by `progress` ms unless the animation is paused. */
    method Update(progress: real, pause: bool, trig: Trig)
      requires Valid()
      modifies wave1, worm1, worm2, worm3
      ensures pause ==> unchanged(wave1, worm1, worm2, worm3)
      ensures !pause ==> wave1.baseAngle == PhaseAfter(old(wave1.baseAngle), wave1.speed, wave1.wavelength, trig.pi, progress)
      ensures !pause ==> worm1.position == LoopingStep(old(worm1.position), worm1.speed, worm1.length, progress)
      ensures !pause ==> worm2.position == LoopingStep(old(worm2.position), worm2.speed, worm2.length, progress)
      ensures !pause ==> Motion(worm3.position, worm3.speed) ==
                         BouncingStep(Motion(old(worm3.position), old(worm3.speed)), worm3.length, progress)
    {
      if !pause {
        wave1.Update(progress, trig);
        worm1.Update(progress);
        worm2.Update(progress);
        worm3.Update(progress);
      }
    }

    /** Clears the strip, then draws the wave if visible and the worms in order. */
    method Draw(waveVisible: bool, trig: Trig)
      requires Valid()
      modifies ctx.strip.leds
      ensures ctx.Pixels() == Frame(waveVisible, trig)
    {
      ctx.ClearStrip();
      if waveVisible {
        wave1.Draw(ctx, trig);
      }
      ghost var background := ctx.Pixels();
      assert background == if waveVisible then wave1.Image(trig) else Uniform(ctx.clearColor);
      worm1.Draw(ctx);
      worm2.Draw(ctx);
      worm3.Draw(ctx);
      CompositeThree(background, Trail(worm1.position, worm1.length, worm1.color),
                     Trail(worm2.position, worm2.length, worm2.color),
                     Trail(worm3.position, worm3.length, worm3.color));
    }

    /** One frame at time `timestamp` (ms): the elapsed time since the previous frame
        drives the update, then the frame is drawn. */
    method Loop(timestamp: real, pause: bool, waveVisible: bool, trig: Trig)
      requires Valid()
      modifies this`lastRender, wave1, worm1, worm2, worm3, ctx.strip.leds
      ensures lastRender == timestamp
      ensures pause ==> unchanged(wave1, worm1, worm2, worm3)
      ensures !pause ==> wave1.baseAngle == PhaseAfter(old(wave1.baseAngle), wave1.speed, wave1.wavelength, trig.pi, timestamp - old(lastRender))
      ensures !pause ==> worm1.position == LoopingStep(old(worm1.position), worm1.speed, worm1.length, timestamp - old(lastRender))
      ensures !pause ==> worm2.position == LoopingStep(old(worm2.position), worm2.speed, worm2.length, timestamp - old(lastRender))
      ensures !pause ==> Motion(worm3.position, worm3.speed) ==
                         BouncingStep(Motion(old(worm3.position), old(worm3.speed)), worm3.length, timestamp - old(lastRender))
      ensures ctx.Pixels() == Frame(waveVisible, trig)
    {
      var progress := timestamp - lastRender;
      Update(progress, pause, trig);
      Draw(waveVisible, trig);
      lastRender := timestamp;
    }
  }
}
