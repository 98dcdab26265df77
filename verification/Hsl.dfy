/** The colour arithmetic behind the derived titlebar colours: RGB to HSL, back,
    and the shade that scales lightness and saturation. Channels are exact reals. */
module Hsl {

  datatype Rgba = Rgba(red: real, green: real, blue: real, alpha: real)

  datatype Hsla = Hsla(hue: real, saturation: real, lightness: real, alpha: real)

  function Max(a: real, b: real): real { if a > b then a else b }

  function Min(a: real, b: real): real { if a < b then a else b }

  function Top(c: Rgba): real { Max(c.red, Max(c.green, c.blue)) }

  function Bottom(c: Rgba): real { Min(c.red, Min(c.green, c.blue)) }

  /** Every channel between 0 and 1. */
  predicate Proper(c: Rgba) {
    0.0 <= c.red <= 1.0 && 0.0 <= c.green <= 1.0 && 0.0 <= c.blue <= 1.0
  }

  predicate Grey(c: Rgba) {
    c.red == c.green == c.blue
  }

  /** A hue in degrees, and saturation and lightness between 0 and 1. */
  predicate ProperHsl(h: Hsla) {
    0.0 <= h.hue < 360.0 && 0.0 <= h.saturation <= 1.0 && 0.0 <= h.lightness <= 1.0
  }

  // --- RGB to HSL ---

  function Lightness(c: Rgba): real {
    (Top(c) + Bottom(c)) / 2.0
  }

  /** How wide the channels could be apart at this lightness. */
  function Room(c: Rgba): real {
    if Lightness(c) <= 0.5 then Top(c) + Bottom(c) else 2.0 - Top(c) - Bottom(c)
  }

  function Saturation(c: Rgba): real
    requires Proper(c)
  {
    if Top(c) == Bottom(c) then 0.0
    else
      RoomPositive(c);
      (Top(c) - Bottom(c)) / Room(c)
  }

  /** The position on the colour wheel, in sixths from red, between -1 and 5. */
  function Sixths(c: Rgba): real
    requires Top(c) != Bottom(c)
  {
    var delta := Top(c) - Bottom(c);
    if c.red == Top(c) then (c.green - c.blue) / delta
    else if c.green == Top(c) then 2.0 + (c.blue - c.red) / delta
    else 4.0 + (c.red - c.green) / delta
  }

  function Hue(c: Rgba): real {
    if Top(c) == Bottom(c) then 0.0
    else
      var hue := Sixths(c) * 60.0;
      if hue < 0.0 then hue + 360.0 else hue
  }

  function ToHsl(c: Rgba): Hsla
    requires Proper(c)
  {
    Hsla(Hue(c), Saturation(c), Lightness(c), c.alpha)
  }

  lemma RoomPositive(c: Rgba)
    requires Proper(c) && Top(c) != Bottom(c)
    ensures Room(c) > 0.0 && Top(c) - Bottom(c) <= Room(c)
  {
  }

  method FromRgba(c: Rgba) returns (h: Hsla)
    requires Proper(c)
    ensures h == ToHsl(c)
  {
    var red, green, blue := c.red, c.green, c.blue;
    var max := Max(red, Max(green, blue));
    var min := Min(red, Min(green, blue));
    h := Hsla(0.0, 0.0, (max + min) / 2.0, c.alpha);
    if max != min {
      RoomPositive(c);
      if h.lightness <= 0.5 {
        h := h.(saturation := (max - min) / (max + min));
      } else {
        h := h.(saturation := (max - min) / (2.0 - max - min));
      }
      var delta := max - min;
      if red == max {
        h := h.(hue := (green - blue) / delta);
      } else if green == max {
        h := h.(hue := 2.0 + (blue - red) / delta);
      } else if blue == max {
        h := h.(hue := 4.0 + (red - green) / delta);
      }
      h := h.(hue := h.hue * 60.0);
      if h.hue < 0.0 {
        h := h.(hue := h.hue + 360.0);
      }
    }
  }

  // --- HSL to RGB ---

  /** A channel as a function of its own hue, on one turn of the wheel: it rises
      over the first sixth, stays high to the half, falls to two thirds. */
  function Wave(hue: real, m1: real, m2: real): real {
    if hue < 60.0 then m1 + (m2 - m1) * hue / 60.0
    else if hue < 180.0 then m2
    else if hue < 240.0 then m1 + (m2 - m1) * (240.0 - hue) / 60.0
    else m1
  }

  /** A hue brought onto the wheel from at most one turn away. */
  function Turned(hue: real): real
    requires -360.0 <= hue <= 720.0
  {
    if hue > 360.0 then hue - 360.0 else if hue < 0.0 then hue + 360.0 else hue
  }

  function High(h: Hsla): real {
    if h.lightness <= 0.5 then h.lightness * (1.0 + h.saturation)
    else h.lightness + h.saturation - h.lightness * h.saturation
  }

  function Low(h: Hsla): real {
    2.0 * h.lightness - High(h)
  }

  predicate OnWheel(h: Hsla) {
    0.0 <= h.hue <= 360.0
  }

  function ToRgb(h: Hsla): Rgba
    requires OnWheel(h)
  {
    if h.saturation == 0.0 then Rgba(h.lightness, h.lightness, h.lightness, h.alpha)
    else
      Rgba(Wave(Turned(h.hue + 120.0), Low(h), High(h)),
           Wave(h.hue, Low(h), High(h)),
           Wave(Turned(h.hue - 120.0), Low(h), High(h)),
           h.alpha)
  }

  /** Any hue, however many turns away, reads the channel at its place on the
      wheel. */
  method Channel(hue0: real, m1: real, m2: real) returns (value: real)
    ensures exists turns: int :: ReadsAt(value, hue0, turns, m1, m2)
    ensures -360.0 <= hue0 <= 720.0 ==> value == Wave(Turned(hue0), m1, m2)
  {
    var hue := hue0;
    ghost var turns := 0;
    while hue > 360.0
      invariant hue == hue0 - 360.0 * turns as real
      invariant hue0 <= 360.0 ==> hue == hue0
      invariant hue0 > 360.0 ==> hue > 0.0
      decreases hue
    {
      hue := hue - 360.0;
      turns := turns + 1;
    }
    while hue < 0.0
      invariant hue == hue0 - 360.0 * turns as real
      invariant hue0 >= 0.0 ==> hue >= 0.0 && (hue0 <= 360.0 ==> turns == 0) && (hue0 <= 720.0 ==> hue == Turned(hue0))
      invariant hue0 < 0.0 ==> hue < 360.0
      invariant -360.0 <= hue0 < 0.0 ==> hue == hue0 || hue == hue0 + 360.0
      invariant hue <= 360.0
      decreases 0.0 - hue
    {
      hue := hue + 360.0;
      turns := turns - 1;
    }
    assert -360.0 <= hue0 <= 720.0 ==> hue == Turned(hue0);
    hide Turned;
    if hue < 60.0 {
      value := m1 + (m2 - m1) * hue / 60.0;
    } else if hue < 180.0 {
      value := m2;
    } else if hue < 240.0 {
      value := m1 + (m2 - m1) * (240.0 - hue) / 60.0;
    } else {
      value := m1;
    }
    assert value == Wave(hue, m1, m2);
    hide Wave;
    assert ReadsAt(value, hue0, turns, m1, m2);
  }

  ghost predicate ReadsAt(value: real, hue: real, turns: int, m1: real, m2: real) {
    var place := hue - 360.0 * turns as real;
    0.0 <= place <= 360.0 && value == Wave(place, m1, m2)
  }

  /** How many turns are taken off does not matter. */
  lemma TurnsAgree(v: real, w: real, hue: real, i: int, j: int, m1: real, m2: real)
    requires ReadsAt(v, hue, i, m1, m2) && ReadsAt(w, hue, j, m1, m2)
    ensures v == w
  {
    if i != j {
      assert i == j + 1 || j == i + 1;
      FlatEnds(m1, m2);
    }
  }

  lemma FlatEnds(m1: real, m2: real)
    ensures Wave(0.0, m1, m2) == m1 && Wave(360.0, m1, m2) == m1
  {
    assert (m2 - m1) * 0.0 / 60.0 == 0.0;
  }

  method FromHsla(h: Hsla) returns (c: Rgba)
    requires OnWheel(h)
    ensures c == ToRgb(h)
  {
    var m2 := if h.lightness <= 0.5 then h.lightness * (1.0 + h.saturation)
              else h.lightness + h.saturation - h.lightness * h.saturation;
    var m1 := 2.0 * h.lightness - m2;
    assert m2 == High(h) && m1 == Low(h);
    hide High, Low, Wave;
    if h.saturation == 0.0 {
      c := Rgba(h.lightness, h.lightness, h.lightness, h.alpha);
    } else {
      var red := Channel(h.hue + 120.0, m1, m2);
      var green := Channel(h.hue, m1, m2);
      var blue := Channel(h.hue - 120.0, m1, m2);
      c := Rgba(red, green, blue, h.alpha);
    }
  }

  // --- the standard ---

  /** hue.to.rgb of section 4.2.4 of CSS Color Module Level 3; a hue is a
      fraction of a turn there. */
  function CssChannel(m1: real, m2: real, hue: real): real {
    var h := if hue < 0.0 then hue + 1.0 else if hue > 1.0 then hue - 1.0 else hue;
    if h * 6.0 < 1.0 then m1 + (m2 - m1) * h * 6.0
    else if h * 2.0 < 1.0 then m2
    else if h * 3.0 < 2.0 then m1 + (m2 - m1) * (2.0 / 3.0 - h) * 6.0
    else m1
  }

  /** hsl.to.rgb of the same section. */
  function CssRgb(h: real, s: real, l: real, alpha: real): Rgba {
    var m2 := if l <= 0.5 then l * (s + 1.0) else l + s - l * s;
    var m1 := l * 2.0 - m2;
    Rgba(CssChannel(m1, m2, h + 1.0 / 3.0), CssChannel(m1, m2, h), CssChannel(m1, m2, h - 1.0 / 3.0), alpha)
  }

  lemma WaveIsCss(m1: real, m2: real, hue: real)
    requires -360.0 <= hue <= 720.0
    ensures Wave(Turned(hue), m1, m2) == CssChannel(m1, m2, hue / 360.0)
  {
    var t, d := Turned(hue), m2 - m1;
    assert d * (t / 360.0) * 6.0 == d * t / 60.0;
    assert d * (2.0 / 3.0 - t / 360.0) * 6.0 == d * (240.0 - t) / 60.0;
  }

  /** The conversion back is the standard's, with its hue in degrees. */
  lemma ToRgbIsCss(h: Hsla)
    requires OnWheel(h)
    ensures ToRgb(h) == CssRgb(h.hue / 360.0, h.saturation, h.lightness, h.alpha)
  {
    WaveIsCss(Low(h), High(h), h.hue + 120.0);
    WaveIsCss(Low(h), High(h), h.hue);
    WaveIsCss(Low(h), High(h), h.hue - 120.0);
    assert (h.hue + 120.0) / 360.0 == h.hue / 360.0 + 1.0 / 3.0;
    assert (h.hue - 120.0) / 360.0 == h.hue / 360.0 - 1.0 / 3.0;
    if h.saturation == 0.0 {
      assert High(h) == h.lightness && Low(h) == h.lightness;
      FlatWave(h.lightness, Turned(h.hue + 120.0));
      FlatWave(h.lightness, h.hue);
      FlatWave(h.lightness, Turned(h.hue - 120.0));
    }
  }

  lemma FlatWave(level: real, hue: real)
    ensures Wave(hue, level, level) == level
  {
  }

  // --- round trips ---

  /** Dividing by the room and multiplying back. */
  lemma Ratio(a: real, b: real)
    requires b > 0.0
    ensures a / b * b == a
    ensures 0.0 <= a <= b ==> 0.0 <= a / b <= 1.0
    ensures 0.0 < a ==> 0.0 < a / b
  {
    var q := a / b;
    assert q * b == a;
  }

  lemma ToHslProper(c: Rgba)
    requires Proper(c)
    ensures ProperHsl(ToHsl(c))
    ensures ToHsl(c).saturation == 0.0 <==> Grey(c)
  {
    if Top(c) != Bottom(c) {
      RoomPositive(c);
      Ratio(Top(c) - Bottom(c), Room(c));
      SixthsSpan(c);
    }
  }

  function Scaled(d: real, t: real): real {
    d * t
  }

  /** Where the wheel position lies, by the largest channel, and what it means
      for the other two. */
  lemma SixthsSpan(c: Rgba)
    requires Top(c) != Bottom(c)
    ensures var delta := Top(c) - Bottom(c);
      -1.0 <= Sixths(c) <= 5.0 &&
      (c.red == Top(c) ==> -1.0 <= Sixths(c) <= 1.0 && Scaled(delta, Sixths(c)) == c.green - c.blue) &&
      (c.red != Top(c) && c.green == Top(c) ==>
        1.0 < Sixths(c) <= 3.0 && Scaled(delta, Sixths(c) - 2.0) == c.blue - c.red) &&
      (c.red != Top(c) && c.green != Top(c) ==>
        3.0 < Sixths(c) < 5.0 && Scaled(delta, Sixths(c) - 4.0) == c.red - c.green)
    ensures c.red == Top(c) ==> (Sixths(c) >= 0.0 <==> c.green >= c.blue)
    ensures c.red != Top(c) && c.green == Top(c) ==> (Sixths(c) >= 2.0 <==> c.blue >= c.red)
    ensures c.red != Top(c) && c.green != Top(c) ==> (Sixths(c) >= 4.0 <==> c.red >= c.green)
  {
    var delta := Top(c) - Bottom(c);
    Span(c.green - c.blue, delta);
    Span(c.blue - c.red, delta);
    Span(c.red - c.green, delta);
  }

  lemma Span(a: real, delta: real)
    requires delta > 0.0 && -delta <= a <= delta
    ensures -1.0 <= a / delta <= 1.0
    ensures a < delta ==> a / delta < 1.0
    ensures -delta < a ==> -1.0 < a / delta
    ensures a / delta >= 0.0 <==> a >= 0.0
    ensures Scaled(delta, a / delta) == a
  {
    Quotient(a, delta);
    var q := a / delta;
    ScaledUnits(delta);
    hide Scaled;
    ScaledOrder(delta, q, 1.0);
    ScaledOrder(delta, q, 0.0);
    ScaledOrder(delta, q, -1.0);
  }

  lemma ScaledOrder(d: real, t: real, k: real)
    requires d > 0.0
    ensures t < k ==> Scaled(d, t) < Scaled(d, k)
    ensures t == k ==> Scaled(d, t) == Scaled(d, k)
    ensures t > k ==> Scaled(d, t) > Scaled(d, k)
  {
    if t < k {
      assert d * (k - t) > 0.0;
    } else if t > k {
      assert d * (t - k) > 0.0;
    }
  }

  lemma ScaledUnits(d: real)
    ensures Scaled(d, 1.0) == d && Scaled(d, 0.0) == 0.0 && Scaled(d, -1.0) == -d
  {
  }

  lemma Quotient(a: real, delta: real)
    requires delta > 0.0
    ensures a / delta * delta == a
    ensures Scaled(delta, a / delta) == a
  {
  }

  /** The two branches of the reconstruction, undone. */
  lemma DarkHigh(h: Hsla, max: real, min: real)
    requires h.lightness == (max + min) / 2.0 && h.lightness <= 0.5 && Scaled(max + min, h.saturation) == max - min
    ensures High(h) == max
  {
    var l, s := h.lightness, h.saturation;
    assert l * s == s * (max + min) / 2.0;
    assert l * (1.0 + s) == l + l * s;
  }

  lemma LightHigh(h: Hsla, max: real, min: real)
    requires h.lightness == (max + min) / 2.0 && h.lightness > 0.5 && Scaled(2.0 - max - min, h.saturation) == max - min
    ensures High(h) == max
  {
    var l, s := h.lightness, h.saturation;
    assert s * (1.0 - l) == s * (2.0 - max - min) / 2.0;
    assert s - l * s == s * (1.0 - l);
  }

  /** The extremes of the reconstruction are those of the colour. */
  lemma ExtremesReturn(c: Rgba)
    requires Proper(c)
    ensures High(ToHsl(c)) == Top(c) && Low(ToHsl(c)) == Bottom(c)
  {
    var h, max, min := ToHsl(c), Top(c), Bottom(c);
    if max == min {
      HighFlat(h);
    } else {
      RoomPositive(c);
      Quotient(max - min, Room(c));
      hide Scaled, Top, Bottom, High;
      if h.lightness <= 0.5 {
        DarkHigh(h, max, min);
      } else {
        LightHigh(h, max, min);
      }
    }
  }

  lemma HighFlat(h: Hsla)
    requires h.saturation == 0.0
    ensures High(h) == h.lightness && Low(h) == h.lightness
  {
  }

  /** The wave by sixths of a turn; the boundaries belong to both sides. */
  lemma WaveBySixths(t: real, lo: real, hi: real)
    ensures 0.0 <= t <= 1.0 ==> Wave(60.0 * t, lo, hi) == lo + Scaled(hi - lo, t)
    ensures 1.0 <= t <= 3.0 ==> Wave(60.0 * t, lo, hi) == hi
    ensures 3.0 <= t <= 4.0 ==> Wave(60.0 * t, lo, hi) == lo + Scaled(hi - lo, 4.0 - t)
    ensures 4.0 <= t ==> Wave(60.0 * t, lo, hi) == lo
  {
    hide Wave, Scaled;
    WaveEdges(lo, hi);
    if 0.0 <= t < 1.0 {
      WaveRises(t, lo, hi);
    } else if 1.0 < t < 3.0 {
      WaveStays(t, lo, hi);
    } else if 3.0 < t < 4.0 {
      WaveFalls(t, lo, hi);
    } else if 4.0 < t {
      WaveRests(t, lo, hi);
    }
  }

  lemma WaveEdges(lo: real, hi: real)
    ensures Wave(60.0 * 1.0, lo, hi) == hi && Wave(60.0 * 3.0, lo, hi) == hi && Wave(60.0 * 4.0, lo, hi) == lo
    ensures Scaled(hi - lo, 1.0) == hi - lo && Scaled(hi - lo, 0.0) == 0.0
  {
    assert (hi - lo) * (240.0 - 180.0) / 60.0 == hi - lo;
  }

  lemma WaveRises(t: real, lo: real, hi: real)
    requires 0.0 <= t < 1.0
    ensures Wave(60.0 * t, lo, hi) == lo + Scaled(hi - lo, t)
  {
    var d := hi - lo;
    assert d * (60.0 * t) / 60.0 == d * t;
  }

  lemma WaveStays(t: real, lo: real, hi: real)
    requires 1.0 < t < 3.0
    ensures Wave(60.0 * t, lo, hi) == hi
  {
  }

  lemma WaveFalls(t: real, lo: real, hi: real)
    requires 3.0 < t < 4.0
    ensures Wave(60.0 * t, lo, hi) == lo + Scaled(hi - lo, 4.0 - t)
  {
    var d := hi - lo;
    assert d * (240.0 - 60.0 * t) / 60.0 == d * (4.0 - t);
  }

  lemma WaveRests(t: real, lo: real, hi: real)
    requires 4.0 < t
    ensures Wave(60.0 * t, lo, hi) == lo
  {
  }

  /** The three channels at a wheel position, by its sector. */
  lemma ChannelsAt(t: real, lo: real, hi: real, hue: real)
    requires -1.0 <= t <= 5.0 && lo <= hi && hue == 60.0 * (if t < 0.0 then t + 6.0 else t)
    ensures var d := hi - lo;
      var r, g, b := Wave(Turned(hue + 120.0), lo, hi), Wave(hue, lo, hi), Wave(Turned(hue - 120.0), lo, hi);
      (-1.0 <= t <= 0.0 ==> r == hi && g == lo && b == lo - Scaled(d, t)) &&
      (0.0 <= t <= 1.0 ==> r == hi && g == lo + Scaled(d, t) && b == lo) &&
      (1.0 <= t <= 2.0 ==> r == lo - Scaled(d, t - 2.0) && g == hi && b == lo) &&
      (2.0 <= t <= 3.0 ==> r == lo && g == hi && b == lo + Scaled(d, t - 2.0)) &&
      (3.0 <= t <= 4.0 ==> r == lo && g == lo - Scaled(d, t - 4.0) && b == hi) &&
      (4.0 <= t <= 5.0 ==> r == lo + Scaled(d, t - 4.0) && g == lo && b == hi)
  {
    var u := if t < 0.0 then t + 6.0 else t;
    var ru := if u > 4.0 then u - 4.0 else u + 2.0;
    var bu := if u < 2.0 then u + 4.0 else u - 2.0;
    assert Turned(hue + 120.0) == 60.0 * ru && Turned(hue - 120.0) == 60.0 * bu;
    WaveBySixths(ru, lo, hi);
    WaveBySixths(u, lo, hi);
    WaveBySixths(bu, lo, hi);
    Negated(hi - lo, t);
    Negated(hi - lo, t - 2.0);
    Negated(hi - lo, t - 4.0);
    hide Wave, Turned, Scaled;
  }

  lemma Negated(d: real, t: real)
    ensures Scaled(d, -t) == -Scaled(d, t)
  {
  }

  /** RGB to HSL to RGB is the identity on every colour, in every sector of the
      wheel and on every boundary between them. */
  lemma RgbRoundTrip(c: Rgba)
    requires Proper(c)
    ensures OnWheel(ToHsl(c)) && ToRgb(ToHsl(c)) == c
  {
    ToHslProper(c);
    ExtremesReturn(c);
    if Top(c) != Bottom(c) {
      SixthsSpan(c);
      ChannelsAt(Sixths(c), Bottom(c), Top(c), Hue(c));
      hide Wave, Turned, High, Low, Sixths, Saturation, Scaled;
    }
  }

  /** The spread of the reconstruction, and where it lies. */
  lemma Spread(h: Hsla)
    requires 0.0 <= h.saturation <= 1.0 && 0.0 <= h.lightness <= 1.0
    ensures 0.0 <= Low(h) <= High(h) <= 1.0 && Low(h) + High(h) == 2.0 * h.lightness
    ensures h.lightness <= 0.5 ==> High(h) - Low(h) == Scaled(2.0 * h.lightness, h.saturation)
    ensures h.lightness > 0.5 ==> High(h) - Low(h) == Scaled(2.0 - 2.0 * h.lightness, h.saturation)
  {
    var l, s := h.lightness, h.saturation;
    Share(l, s);
    Share(1.0 - l, s);
    HighIs(h);
    hide Scaled, High;
  }

  lemma HighIs(h: Hsla)
    ensures High(h) == h.lightness + Scaled(if h.lightness <= 0.5 then h.lightness else 1.0 - h.lightness, h.saturation)
  {
    var l, s := h.lightness, h.saturation;
    assert l * (1.0 + s) == l + l * s;
    assert (1.0 - l) * s == s - l * s;
  }

  lemma Share(whole: real, part: real)
    requires 0.0 <= whole && 0.0 <= part <= 1.0
    ensures 0.0 <= Scaled(whole, part) <= whole
    ensures Scaled(2.0 * whole, part) == 2.0 * Scaled(whole, part)
  {
    assert whole * part >= 0.0;
    assert whole * part <= whole * 1.0 by {
      assert whole * (1.0 - part) >= 0.0;
    }
  }

  /** The position of a hue in sixths, on the span a colour's own position has. */
  function Place(hue: real): real {
    if hue > 300.0 then hue / 60.0 - 6.0 else hue / 60.0
  }

  /** Reading the position back from the three channels. */
  lemma PlaceReturns(t: real, lo: real, hi: real, c: Rgba)
    requires -1.0 < t <= 5.0 && lo < hi
    requires var d := hi - lo;
      (-1.0 <= t <= 0.0 ==> c.red == hi && c.green == lo && c.blue == lo - Scaled(d, t)) &&
      (0.0 <= t <= 1.0 ==> c.red == hi && c.green == lo + Scaled(d, t) && c.blue == lo) &&
      (1.0 <= t <= 2.0 ==> c.red == lo - Scaled(d, t - 2.0) && c.green == hi && c.blue == lo) &&
      (2.0 <= t <= 3.0 ==> c.red == lo && c.green == hi && c.blue == lo + Scaled(d, t - 2.0)) &&
      (3.0 <= t <= 4.0 ==> c.red == lo && c.green == lo - Scaled(d, t - 4.0) && c.blue == hi) &&
      (4.0 <= t <= 5.0 ==> c.red == lo + Scaled(d, t - 4.0) && c.green == lo && c.blue == hi)
    ensures Top(c) == hi && Bottom(c) == lo
    ensures Hue(c) == 60.0 * (if t < 0.0 then t + 6.0 else t)
  {
    var d := hi - lo;
    var base := if t <= 1.0 then 0.0 else if t <= 3.0 then 2.0 else 4.0;
    ScaledSpan(d, t - base);
    ScaledBack(d, t - base);
    hide Scaled;
    if t == 5.0 {
      assert c.red == hi;
      ScaledBack(d, -1.0);
      assert Scaled(d, -1.0) == -d by { ScaledUnits(d); }
    }
  }

  lemma ScaledSpan(d: real, t: real)
    requires d > 0.0 && -1.0 <= t <= 1.0
    ensures -d <= Scaled(d, t) <= d
    ensures 0.0 <= t <==> 0.0 <= Scaled(d, t)
    ensures t <= 0.0 <==> Scaled(d, t) <= 0.0
    ensures t < 1.0 <==> Scaled(d, t) < d
    ensures -1.0 < t <==> -d < Scaled(d, t)
  {
    ScaledUnits(d);
    hide Scaled;
    ScaledOrder(d, t, 1.0);
    ScaledOrder(d, t, 0.0);
    ScaledOrder(d, t, -1.0);
  }

  lemma ScaledBack(d: real, t: real)
    requires d > 0.0
    ensures Scaled(d, t) / d == t
    ensures (0.0 - Scaled(d, t)) / d == -t
  {
  }

  /** HSL to RGB to HSL gives back a colour that has a hue. */
  lemma ColouredRoundTrip(h: Hsla)
    requires ProperHsl(h) && h.saturation > 0.0 && 0.0 < h.lightness < 1.0
    ensures Proper(ToRgb(h)) && ToHsl(ToRgb(h)) == h
  {
    ToRgbProper(h);
    var c, t, lo, hi := ToRgb(h), Place(h.hue), Low(h), High(h);
    Spread(h);
    var room := if h.lightness <= 0.5 then 2.0 * h.lightness else 2.0 - 2.0 * h.lightness;
    ScaledPositive(room, h.saturation);
    ScaledBack(room, h.saturation);
    hide Scaled, High, Low;
    ChannelsAt(t, lo, hi, h.hue);
    hide Wave, Turned;
    PlaceReturns(t, lo, hi, c);
    hide Top, Bottom, Hue;
    assert Lightness(c) == h.lightness;
    assert Room(c) == room;
  }

  lemma ScaledPositive(d: real, t: real)
    requires d > 0.0 && t > 0.0
    ensures Scaled(d, t) > 0.0
  {
  }

  /** The result is a colour of the same lightness, whatever the hue. */
  lemma ToRgbProper(h: Hsla)
    requires ProperHsl(h)
    ensures Proper(ToRgb(h)) && Lightness(ToRgb(h)) == h.lightness
    ensures h.saturation == 0.0 || h.lightness == 0.0 || h.lightness == 1.0 ==> Grey(ToRgb(h))
  {
    var lo, hi := Low(h), High(h);
    Spread(h);
    if lo == hi {
      FlatWave(lo, Turned(h.hue + 120.0));
      FlatWave(lo, h.hue);
      FlatWave(lo, Turned(h.hue - 120.0));
    } else if h.saturation != 0.0 {
      hide Scaled, High, Low;
      ChannelsAt(Place(h.hue), lo, hi, h.hue);
      hide Wave, Turned;
      PlaceReturns(Place(h.hue), lo, hi, ToRgb(h));
    }
  }

  /** Exactly the colours that have a hue, and the greys recorded with hue 0,
      come back unchanged: black and white lose their saturation and hue. */
  lemma HslRoundTrip(h: Hsla)
    requires ProperHsl(h)
    ensures Proper(ToRgb(h))
    ensures ToHsl(ToRgb(h)) == h <==>
      if h.saturation > 0.0 then 0.0 < h.lightness < 1.0 else h.hue == 0.0
  {
    ToRgbProper(h);
    if h.saturation > 0.0 && 0.0 < h.lightness < 1.0 {
      ColouredRoundTrip(h);
    } else {
      ToHslProper(ToRgb(h));
    }
  }

  // --- shade ---

  function Clamp(x: real): real {
    if x > 1.0 then 1.0 else if x < 0.0 then 0.0 else x
  }

  function Shaded(c: Rgba, factor: real): Rgba
    requires Proper(c)
  {
    ToHslProper(c);
    ToRgb(Scale(ToHsl(c), factor)).(alpha := 1.0)
  }

  function Scale(h: Hsla, factor: real): (k: Hsla)
    ensures k.hue == h.hue && 0.0 <= k.saturation <= 1.0 && 0.0 <= k.lightness <= 1.0
  {
    h.(lightness := Clamp(Scaled(h.lightness, factor)), saturation := Clamp(Scaled(h.saturation, factor)))
  }

  method Shade(c: Rgba, factor: real) returns (out: Rgba)
    requires Proper(c)
    ensures out == Shaded(c, factor)
  {
    hide ToRgb, Hue, Saturation, Lightness, Clamp, Scaled;
    ToHslProper(c);
    var h := FromRgba(c);
    h := h.(lightness := Clamp(Scaled(h.lightness, factor)));
    h := h.(saturation := Clamp(Scaled(h.saturation, factor)));
    out := FromHsla(h);
    out := out.(alpha := 1.0);
  }

  /** Factor 1 keeps the colour and makes it opaque. */
  lemma ShadeByOne(c: Rgba)
    requires Proper(c)
    ensures Shaded(c, 1.0) == c.(alpha := 1.0)
  {
    ToHslProper(c);
    RgbRoundTrip(c);
  }

  /** Any factor at all gives a proper colour, keeps greys grey, and scales the
      lightness; a result that still has a hue has the same hue and the scaled
      saturation. */
  lemma ShadeScales(c: Rgba, factor: real)
    requires Proper(c)
    ensures var out, h := Shaded(c, factor), ToHsl(c);
      Proper(out) && out.alpha == 1.0 && (Grey(c) ==> Grey(out)) && Nearest(Lightness(out), h.lightness * factor) &&
      (!Grey(out) ==> Hue(out) == h.hue && Nearest(Saturation(out), h.saturation * factor))
  {
    ToHslProper(c);
    ClampNearest(ToHsl(c).lightness, factor);
    ClampNearest(ToHsl(c).saturation, factor);
    GreyStays(ToHsl(c), factor);
    hide ToRgb, Clamp, Proper, Scaled, Hue, Saturation, Lightness, Grey, Nearest;
    Opaque(Scale(ToHsl(c), factor));
  }

  /** y is x itself, or the end of the unit interval that x lies beyond. */
  predicate Nearest(y: real, x: real) {
    0.0 <= y <= 1.0 && (0.0 <= x <= 1.0 ==> y == x) && (x < 0.0 ==> y == 0.0) && (x > 1.0 ==> y == 1.0)
  }

  lemma ClampNearest(d: real, factor: real)
    ensures Nearest(Clamp(Scaled(d, factor)), d * factor)
  {
  }

  lemma GreyStays(h: Hsla, factor: real)
    ensures h.saturation == 0.0 ==> Scale(h, factor).saturation == 0.0
  {
  }

  /** A made colour, read back once its opacity is dropped. */
  lemma Opaque(k: Hsla)
    requires ProperHsl(k)
    ensures var out := ToRgb(k).(alpha := 1.0);
      Proper(out) && Lightness(out) == k.lightness && (k.saturation == 0.0 ==> Grey(out)) &&
      (!Grey(out) ==> Hue(out) == k.hue && Saturation(out) == k.saturation)
  {
    hide ToRgb, Hue, Saturation, Lightness, Proper, Grey;
    ToRgbProper(k);
    AlphaAside(ToRgb(k));
    if k.saturation > 0.0 && 0.0 < k.lightness < 1.0 {
      ColouredRoundTrip(k);
    }
  }

  /** The conversion does not look at the opacity. */
  lemma AlphaAside(c: Rgba)
    requires Proper(c)
    ensures var d := c.(alpha := 1.0);
      Proper(d) && Lightness(d) == Lightness(c) && Saturation(d) == Saturation(c) && Hue(d) == Hue(c) &&
      (Grey(d) <==> Grey(c))
  {
  }
}
