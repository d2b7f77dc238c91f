/** Colours of the LED strip and the HSL to RGB conversion used by the wave effect.
    Channel values are reals: the conversion neither rounds nor clamps them. */
module Colors {

  /** An immutable RGB triple. */
  datatype Color = Color(red: real, green: real, blue: real)

  /** Every channel lies in [0, 255]. */
  predicate InChannelRange(c: Color) {
    0.0 <= c.red <= 255.0 && 0.0 <= c.green <= 255.0 && 0.0 <= c.blue <= 255.0
  }

  function Min(a: real, b: real): real { if a <= b then a else b }
  function Max(a: real, b: real): real { if a <= b then b else a }

  /** The periodic helper of the conversion: `t` is first shifted by one towards [0, 1],
      then mapped through four linear pieces with breakpoints 1/6, 1/2 and 2/3. From
      t = -1 upwards the result lies between `p` and `q`. */
  function Hue2Rgb(p: real, q: real, t: real): (v: real)
    ensures -1.0 <= t ==> Min(p, q) <= v <= Max(p, q)
  {
    var t1 := if t < 0.0 then t + 1.0 else t;
    var t2 := if t1 > 1.0 then t1 - 1.0 else t1;
    Blend(p, q, 6.0 * t2);
    Blend(p, q, (2.0 / 3.0 - t2) * 6.0);
    assert p + (q - p) * 6.0 * t2 == p + (q - p) * (6.0 * t2);
    assert p + (q - p) * (2.0 / 3.0 - t2) * 6.0 == p + (q - p) * ((2.0 / 3.0 - t2) * 6.0);
    if t2 < 1.0 / 6.0 then p + (q - p) * 6.0 * t2
    else if t2 < 1.0 / 2.0 then q
    else if t2 < 2.0 / 3.0 then p + (q - p) * (2.0 / 3.0 - t2) * 6.0
    else p
  }

  /** Below t = -1 the first piece extrapolates: the result can leave [p, q]. */
  lemma Hue2RgbBelowPeriod()
    ensures Hue2Rgb(0.0, 1.0, -1.5) < 0.0
  {
  }

  /** Converts hue, saturation and lightness to an RGB triple scaled by 255. With no
      saturation the colour is a grey of the given lightness, whatever the hue. */
  function HslToRgb(h: real, s: real, l: real): (c: Color)
    ensures s == 0.0 ==> c == Color(l * 255.0, l * 255.0, l * 255.0)
  {
    if s == 0.0 then
      Color(l * 255.0, l * 255.0, l * 255.0)
    else
      var q := if l < 0.5 then l * (1.0 + s) else l + s - l * s;
      var p := 2.0 * l - q;
      Color(Hue2Rgb(p, q, h + 1.0 / 3.0) * 255.0,
            Hue2Rgb(p, q, h) * 255.0,
            Hue2Rgb(p, q, h - 1.0 / 3.0) * 255.0)
  }

  /** Scaling a non-negative amount by a fraction in [0, 1] keeps it within [0, amount]. */
  lemma Scale(a: real, k: real)
    requires 0.0 <= a && 0.0 <= k <= 1.0
    ensures 0.0 <= a * k
    ensures a * k <= a
  {
    assert 0.0 <= a * (1.0 - k);
    assert a * (1.0 - k) == a - a * k;
  }

  /** A fraction `k` in [0, 1] of the difference q - p lies between 0 and that difference. */
  lemma ScaleDiff(p: real, q: real, k: real)
    requires 0.0 <= k <= 1.0
    ensures p <= q ==> 0.0 <= (q - p) * k
    ensures p <= q ==> (q - p) * k <= q - p
    ensures q < p ==> q - p <= (q - p) * k
    ensures q < p ==> (q - p) * k <= 0.0
  {
    if p <= q {
      Scale(q - p, k);
      assert (q - p) * k <= q - p;
    } else {
      Scale(p - q, k);
      assert (q - p) * k == -((p - q) * k);
    }
  }

  /** Moving from `p` towards `q` by a fraction `k` in [0, 1] stays between the two. */
  lemma Blend(p: real, q: real, k: real)
    ensures 0.0 <= k <= 1.0 ==> Min(p, q) <= p + (q - p) * k <= Max(p, q)
  {
    if 0.0 <= k <= 1.0 {
      ScaleDiff(p, q, k);
    }
  }

  /** The intermediate values `p` and `q` of the conversion lie in [0, 1] whenever
      saturation and lightness do. */
  lemma PqInUnit(s: real, l: real)
    requires 0.0 <= s <= 1.0 && 0.0 <= l <= 1.0
    ensures var q := if l < 0.5 then l * (1.0 + s) else l + s - l * s;
            0.0 <= q <= 1.0 && 0.0 <= 2.0 * l - q <= 1.0
  {
    if l < 0.5 {
      Scale(l, s);
    } else {
      Scale(1.0 - l, s);
      assert (1.0 - l) * s <= 1.0 - l;
      assert l + s - l * s == l + (1.0 - l) * s;
    }
  }

  /** The promise of the conversion: for hue, saturation and lightness in [0, 1]
      every channel lies in [0, 255]. */
  lemma HslToRgbInRange(h: real, s: real, l: real)
    requires 0.0 <= h <= 1.0 && 0.0 <= s <= 1.0 && 0.0 <= l <= 1.0
    ensures InChannelRange(HslToRgb(h, s, l))
  {
    if s != 0.0 {
      var q := if l < 0.5 then l * (1.0 + s) else l + s - l * s;
      var p := 2.0 * l - q;
      PqInUnit(s, l);
    }
  }

  /** Fully saturated hue 1/2 at lightness 1/2 is full-intensity cyan. */
  lemma FullCyan()
    ensures HslToRgb(0.5, 1.0, 0.5) == Color(0.0, 255.0, 255.0)
  {
  }

  /** The hue used by the wave (1/2, fully saturated) is always a shade of cyan:
      green equals blue, they grow with lightness up to 1/2, and red grows above it. */
  lemma CyanShade(l: real)
    ensures HslToRgb(0.5, 1.0, l) ==
            Color(Max(0.0, 2.0 * l - 1.0) * 255.0, Min(1.0, 2.0 * l) * 255.0, Min(1.0, 2.0 * l) * 255.0)
  {
    var q := if l < 0.5 then l * 2.0 else 1.0;
    assert q == if l < 0.5 then l * (1.0 + 1.0) else l + 1.0 - l * 1.0;
    assert Hue2Rgb(2.0 * l - q, q, 0.5 + 1.0 / 3.0) == 2.0 * l - q;
    assert Hue2Rgb(2.0 * l - q, q, 0.5) == q;
    assert Hue2Rgb(2.0 * l - q, q, 0.5 - 1.0 / 3.0) == q;
  }
}
