# LED strip animation engine, modelled in Dafny

This project models the animation engine of a simulated LED strip of 144 LEDs spread
over 1000 mm. The engine draws three effects on the strip:

- two **looping worms**, which run off the far end and start again at 0;
- a **bouncing worm**, which reverses at either end;
- a background **wave** of cyan lightness, which runs outwards from its origin.

Every frame the loop advances the effects by the elapsed time, unless it is paused. It
then clears the strip to grey (200, 200, 200), draws the wave if the wave is visible, and
draws the worms in the fixed order worm 1, worm 2, worm 3. Each draw overwrites the pixels
it covers.

Modules, one per component of `script/app.js`:

- `Colors` (`colors.dfy`): the RGB triple and the HSL to RGB conversion (`hslToRgb`,
  `hue2rgb`), as pure functions with lemmas. The class `Color` of script/app.js:26-44
  only stores three channels behind read-only getters, so it is the immutable datatype
  `Color(red, green, blue)`.
- `Strip` (`strip.dfy`): the strip geometry and the millimetre-to-LED mapping. It also
  holds the class `LedStrip`, which owns the pixel `array` and guards each write, and the
  class `StripContext`, which clears the strip in a loop. Pixel writes are specified by
  two functions on `seq<Color>`: `SetPixel`, one guarded write, and `PaintRun`, a run of
  such writes.
- `Effects` (`effects.dfy`): the classes `LoopingWorm`, `BouncingWorm` and `Wave`. Their
  `Update` methods change `position`, `speed` or `baseAngle` in place. Their `Draw` methods
  write pixels in loops. Each method is proved against a pure step function or image
  function, and the properties are proved about those functions. `Travel` is the distance
  covered in one frame, progress * speed / 1000 (script/app.js:97, 122). `Threshold` is
  the far end of a worm's course, STRIP_LENGTH + length * MM_PER_LED (script/app.js:98,
  123). `WavePixel` is the colour the wave loop writes at one LED, and `WaveImage` and
  `Wave.Image` are the whole strip after a wave draw (script/app.js:153-166).
- `Animation` (`animation.dfy`): the class `AnimationLoop`, which holds the effects and
  the frame functions `update`, `draw` and `loop`. `Trail` is the run of pixels a worm
  draws, the `length` LEDs just below its own LED (script/app.js:103-106). The frame is
  specified by `Composite`, which paints those runs in order over the background, and
  `AnimationLoop.Frame` is that composite over the clear colour or the wave image
  (script/app.js:203-213).

Numbers are `real`. `MM_PER_LED = 1000/144` is an exact rational, so the LED index is
exactly the floor of position / `MM_PER_LED`. Colour channels are unrounded reals, as in
the code. A colour is meant to hold integer channels in [0, 255], but `hslToRgb` returns
unrounded products with 255, and the wave writes them to the strip as they are. The model
follows the code.

The host supplies sine and pi as a `Trig` value. The model assumes only that sine stays
in [-1, 1] and that pi is positive. The wave's lightness bound and its colour range are
proved from the sine bound alone. The positive pi is used only by `PhaseAfter`, for the
direction in which the phase moves.

The bouncing worm is modelled as written: its speed flips whenever its new position is
outside [0, threshold], whichever way it is heading. Its position is never clamped.
`BounceOscillatesOutside` proves a consequence of this. Suppose the worm is further
outside than one frame's travel. Then two frames of equal duration bring it back to the
same place and speed, so it stays outside, and invisible, for as long as the frames keep
that length. `BounceTrappedAfterLongFrame` shows that one 100 ms frame is enough to get
there from the strip, for worm 3's speed (300 mm/s) and length (3 LEDs).

## Model

| member | source | states |
|---|---|---|
| `Strip.SetPixel` | script/app.js:19-23 | a pixel write changes exactly pixel `index` when 0 <= index < length; any other index is ignored without error; every other pixel keeps its colour |
| `Strip.LedStrip.constructor` | script/app.js:15-17 | the strip wraps the given pixel array |
| `Strip.LedStrip.SetPixelColor` | script/app.js:19-23 | the array afterwards is `SetPixel` of its old contents, so only an on-strip index is written |
| `Strip.StripContext.constructor` | script/app.js:47-50 | the context keeps the strip and sets the clear colour to (200, 200, 200) |
| `Strip.StripContext.SetPixelColor` | script/app.js:52-54 | delegates to the strip: the pixels become `SetPixel` of the old pixels |
| `Strip.MapPositionToLedNo` | script/app.js:56-58 | the result n is the floor of position / MM_PER_LED: n <= position / MM_PER_LED < n + 1, i.e. LED n spans [n * MM_PER_LED, (n + 1) * MM_PER_LED); negative and too-large results are not excluded |
| `Strip.MapMidStrip` | script/app.js:56-58 | position 500 mm maps to LED 72 |
| `Strip.MapPositionMonotone` | script/app.js:56-58 | the mapping is monotone non-decreasing in the position |
| `Strip.PaintRun` | script/app.js:103-108 | the writes first .. first + count - 1 in order set exactly the strip pixels in that range to the colour; off-strip indices are dropped; all other pixels are unchanged |
| `Strip.PaintRunOffStrip` | script/app.js:19-23 | a run wholly before or after the strip changes nothing |
| `Strip.PaintWholeStrip` | script/app.js:60-64 | writing one colour to pixels 0 .. NOF_LEDS - 1 leaves the whole strip in that colour, whatever it showed before |
| `Strip.StripContext.ClearStrip` | script/app.js:60-64 | the loop leaves every pixel in [0, NOF_LEDS) equal to the clear colour |
| `Effects.DrawTrail` | script/app.js:103-108 | the worm loop writes exactly the strip pixels in [ledNo - length, ledNo - 1], with ledNo the LED under the position; others unchanged |
| `Effects.TrailOffStripPastThreshold` | script/app.js:96-108 | a worm past the threshold, or below 0, covers no strip pixel, so a looping worm has left the strip entirely before it is reset to 0 |
| `Effects.TrailHiddenAtStart` | script/app.js:103-108 | a worm at position 0, where all worms start, draws nothing on the strip: its run ends just before LED 0 |
| `Effects.LoopingStep` | script/app.js:96-101 | the new position is old + progress * speed / 1000, or exactly 0 when that exceeds STRIP_LENGTH + length * MM_PER_LED; afterwards position <= that threshold |
| `Effects.LoopingRunAccumulates` | script/app.js:96-101 | with non-negative speed and frame times, and no overshoot of the threshold, frames of total duration T move the worm by exactly T * speed / 1000 |
| `Effects.LoopingWorm.constructor` | script/app.js:88-94 | the worm starts with the given position, speed, length and colour |
| `Effects.LoopingWorm.Update` | script/app.js:96-101 | position becomes `LoopingStep` of the old position and stays at most the threshold; speed, length and colour are constants |
| `Effects.LoopingWorm.Draw` | script/app.js:103-108 | the pixels become `PaintRun` of the old pixels over [ledNo - length, ledNo) in the worm's colour |
| `Effects.BouncingStep` | script/app.js:121-126 | the position advances by progress * speed / 1000 and is not clamped; the speed is negated exactly when the new position is above the threshold or below 0, else unchanged; abs(speed) is preserved |
| `Effects.BounceOscillatesOutside` | script/app.js:121-126 | a worm further outside than one frame's travel turns round and then turns round again: two equal frames return it to the same position and speed, still outside |
| `Effects.BounceTrappedAfterLongFrame` | script/app.js:121-126 | worm 3 at 1019 mm with speed 300 mm/s, after a 100 ms frame, is at 1049 mm and beyond the threshold; every later pair of 16 ms frames returns it there |
| `Effects.BouncingWorm.constructor` | script/app.js:113-119 | the worm starts with the given position, speed, length and colour |
| `Effects.BouncingWorm.Update` | script/app.js:121-126 | (position, speed) becomes `BouncingStep` of the old pair |
| `Effects.BouncingWorm.Draw` | script/app.js:128-133 | the pixels become `PaintRun` of the old pixels over [ledNo - length, ledNo) in the worm's colour |
| `Effects.PhaseAfter` | script/app.js:149-151 | the phase after `progress` ms is never above the old phase when speed, wavelength, pi and progress are non-negative (strictly below when speed and progress are positive): the wave runs outwards |
| `Effects.PhaseAdditive` | script/app.js:150-152 | the phase falls linearly with time: updates by a and then b equal one update by a + b, and a zero-length update changes nothing |
| `Effects.Wave.Update` | script/app.js:150-152 | baseAngle decreases by speed / wavelength * 2 pi * progress / 1000 |
| `Effects.WaveAngle` | script/app.js:156-161 | the angle at LED i is baseAngle + 2 pi * abs(position - origin) / wavelength, so it is symmetric about the origin and the wave runs outwards on both sides |
| `Effects.Lightness` | script/app.js:163 | for a non-negative amplitude and a sine in [-1, 1], the lightness lies in [minLightness, minLightness + amplitude]; sine -1 gives minLightness and sine 1 gives minLightness + amplitude |
| `Effects.WaveLightnessInRange` | script/app.js:140-163 | with the wave's constants, the lightness at every LED lies in [minLightness, maxLightness] for every phase |
| `Effects.WaveImageCyan` | script/app.js:154-167 | for a lightness range inside [0, 1], every pixel the wave draws has channels in [0, 255] and green equal to blue |
| `Effects.WaveImageDisplayable` | script/app.js:154-167 | everything the wave draws, with its own constants, is a cyan shade with channels in [0, 255] |
| `Effects.Wave.constructor` | script/app.js:138-147 | wavelength 250 mm, speed 500 mm/s, lightness 0.4 to 0.9, origin 0; the phase starts at 0 |
| `Effects.Wave.Draw` | script/app.js:154-168 | the loop overwrites every pixel with the wave's colour there, so the pixels become the wave image |
| `Colors.Hue2Rgb` | script/app.js:250-257 | for every t >= -1, hue2rgb returns a value between min(p, q) and max(p, q) (a t above 2 falls through to p) |
| `Colors.Hue2RgbBelowPeriod` | script/app.js:250-253 | below t = -1 the single shift by one is not enough: hue2rgb(0, 1, -1.5) is negative, outside [p, q] |
| `Colors.PqInUnit` | script/app.js:259-260 | for s and l in [0, 1], the intermediates q and p = 2l - q lie in [0, 1] |
| `Colors.HslToRgbInRange` | script/app.js:233-268 | for h, s and l in [0, 1], every channel of the result lies in [0, 255] |
| `Colors.HslToRgb` | script/app.js:244-268 | with s = 0 the result is (l * 255, l * 255, l * 255) whatever the hue |
| `Colors.FullCyan` | script/app.js:244-268 | hslToRgb(0.5, 1, 0.5) is full-intensity cyan (0, 255, 255) |
| `Colors.CyanShade` | script/app.js:244-268 | at hue 1/2 and full saturation the result is (max(0, 2l - 1) * 255, min(1, 2l) * 255, min(1, 2l) * 255) |
| `Animation.CompositeLastWins` | script/app.js:203-213 | draws never blend: each pixel ends with the colour of the last run covering it, and keeps the background's otherwise |
| `Animation.CompositeThree` | script/app.js:210-212 | compositing the three worms' runs is drawing worm 1, then worm 2, then worm 3 |
| `Animation.DrawOrder` | script/app.js:203-213 | each pixel shows worm 3 over worm 2 over worm 1 over the wave when it is visible, over the clear colour |
| `Animation.AnimationLoop.constructor` | script/app.js:171-216 | builds the strip context and the effects with their start values, then clears the strip and draws the wave once; the last render time is 0 |
| `Animation.AnimationLoop.Update` | script/app.js:194-201 | when paused, no effect's state changes; otherwise the wave and each worm take one step of their own update |
| `Animation.AnimationLoop.Draw` | script/app.js:203-213 | after clearing, and the wave if visible, the worms are drawn in order: the strip shows `Composite` of that background and the three worms' runs |
| `Animation.AnimationLoop.Loop` | script/app.js:219-227 | one frame: the elapsed time since the last frame drives the update, the frame is drawn, and the timestamp becomes the last render time; while paused all effect state is unchanged |

## Left out

- Building the LED `div`s and formatting the `rgb(...)` CSS string (script/app.js:5-11, 21) are not modelled. The strip is an array of `Color`.
- The click handlers that toggle the wave's visibility and the pause flag (script/app.js:184-191) are not modelled. Both flags are plain inputs to `AnimationLoop.Loop`, `Update` and `Draw`.
- Scheduling is not modelled: `requestAnimationFrame` and the source of the timestamps (script/app.js:226, 229-230). `Loop` models one call, given its timestamp.
- `Math.sin` and `Math.PI` are abstract: a `Trig` value whose sine lies in [-1, 1] and whose pi is positive. No other trigonometric fact is used.
- IEEE-754 rounding is not modelled; all quantities are exact reals.
- The `StripObject` base class is not a separate entity, because the model has no inheritance. Its only state, `visible`, is read only for the wave (script/app.js:206), and that read is the `waveVisible` input. Every effect overrides its empty `update` and `draw`.
- The guard and the write of `LedStrip.setPixelColor` use the global `leds` rather than its own array (script/app.js:20-21). Both name the same 144-element array, so the model guards and writes its own array.
- Worm lengths are `nat`. The code only ever uses 8, 5 and 3; fractional or negative lengths are not modelled.
- Colors.Hue2Rgb: the range is promised only for t >= -1; only t < -1 can leave [min(p, q), max(p, q)] (`Hue2RgbBelowPeriod`: hue2rgb(0, 1, -1.5) < 0). `hslToRgb` only passes t in [-1/3, 4/3] for h in [0, 1].
