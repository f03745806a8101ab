/** The colour picker's conversion between red-green-blue and hue-saturation-value, over the
    reals. */
module Hsv {
  import opened Protocol
  import opened Colors

  /** The remainder that is never negative. */
  function RemEuclid(x: real, m: real): real
    requires m > 0.0
  {
    x - m * ((x / m).Floor as real)
  }

  function Max(x: real, y: real): real {
    if x >= y then x else y
  }

  function Min(x: real, y: real): real {
    if x <= y then x else y
  }

  function Abs(x: real): real {
    if x < 0.0 then -x else x
  }

  datatype Triple = Triple(x: real, y: real, z: real)

  function RgbToHsv(r: real, g: real, b: real): Triple {
    var max, min := Max(Max(r, g), b), Min(Min(r, g), b);
    var d := max - min;
    var h :=
      if d == 0.0 then 0.0
      else if max == r then 60.0 * RemEuclid((g - b) / d, 6.0)
      else if max == g then 60.0 * ((b - r) / d + 2.0)
      else 60.0 * ((r - g) / d + 4.0);
    Triple(RemEuclid(h, 360.0), if max == 0.0 then 0.0 else d / max, max)
  }

  /** Where on the six-sided hue circle, and the chroma and second-largest part there. */
  function Sextant(h2: real, cc: real): Triple {
    var x := cc * (1.0 - Abs(RemEuclid(h2, 2.0) - 1.0));
    var i := h2.Floor;
    if i == 0 then Triple(cc, x, 0.0)
    else if i == 1 then Triple(x, cc, 0.0)
    else if i == 2 then Triple(0.0, cc, x)
    else if i == 3 then Triple(0.0, x, cc)
    else if i == 4 then Triple(x, 0.0, cc)
    else Triple(cc, 0.0, x)
  }

  lemma FloorIs(q: real, k: int)
    requires k as real <= q < k as real + 1.0
    ensures q.Floor == k
  {
  }

  lemma Rem2(x: real, k: int)
    requires 2.0 * (k as real) <= x < 2.0 * (k as real) + 2.0
    ensures RemEuclid(x, 2.0) == x - 2.0 * (k as real)
  {
    FloorIs(x / 2.0, k);
  }

  lemma Rem6(x: real, k: int)
    requires 6.0 * (k as real) <= x < 6.0 * (k as real) + 6.0
    ensures RemEuclid(x, 6.0) == x - 6.0 * (k as real)
  {
    FloorIs(x / 6.0, k);
  }

  lemma Rem360(x: real)
    requires 0.0 <= x < 360.0
    ensures RemEuclid(x, 360.0) == x
  {
  }

  function HsvToRgb(h: real, s: real, v: real): Triple {
    var cc := v * s;
    var h2 := RemEuclid(h / 60.0, 6.0);
    var t, m := Sextant(h2, cc), v - cc;
    Triple(t.x + m, t.y + m, t.z + m)
  }

  /** The second-largest part, as a fraction of the chroma: up and down on each pair of
      sides. */
  function Tooth(h2: real): real {
    if h2 < 1.0 then h2
    else if h2 < 2.0 then 2.0 - h2
    else if h2 < 3.0 then h2 - 2.0
    else if h2 < 4.0 then 4.0 - h2
    else if h2 < 5.0 then h2 - 4.0
    else 6.0 - h2
  }

  lemma ToothIs(h2: real)
    requires 0.0 <= h2 < 6.0
    ensures 1.0 - Abs(RemEuclid(h2, 2.0) - 1.0) == Tooth(h2)
  {
    if h2 < 2.0 {
      Rem2(h2, 0);
    } else if h2 < 4.0 {
      Rem2(h2, 1);
    } else {
      Rem2(h2, 2);
    }
  }

  function Largest(r: real, g: real, b: real): real {
    Max(Max(r, g), b)
  }

  function Smallest(r: real, g: real, b: real): real {
    Min(Min(r, g), b)
  }

  /** The hue on the six-sided circle, without the remainders. */
  function Hue(r: real, g: real, b: real): real {
    var max, d := Largest(r, g, b), Largest(r, g, b) - Smallest(r, g, b);
    if d == 0.0 then 0.0
    else if max == r then (if g >= b then (g - b) / d else (g - b) / d + 6.0)
    else if max == g then (b - r) / d + 2.0
    else (r - g) / d + 4.0
  }

  lemma ScaledUp(p: real, q: real, d: real)
    requires d > 0.0 && p < q
    ensures p * d < q * d
  {
    assert (q - p) * d > 0.0;
    assert (q - p) * d == q * d - p * d;
  }

  /** Scaling by a positive number keeps the order. */
  lemma Scaled(p: real, q: real, d: real)
    requires d > 0.0
    ensures (p < q <==> p * d < q * d) && (q < p <==> q * d < p * d)
  {
    if p < q {
      ScaledUp(p, q, d);
    } else if q < p {
      ScaledUp(q, p, d);
    }
  }

  lemma Quotient(x: real, d: real)
    requires d > 0.0
    ensures (x / d) * d == x && d * (x / d) == x
  {
  }

  lemma Compared(q: real, p: real, d: real, x: real, y: real)
    requires d > 0.0 && q * d == x && p * d == y
    ensures (q < p <==> x < y) && (p < q <==> y < x)
  {
    Scaled(q, p, d);
  }

  lemma Ratio(x: real, d: real)
    requires d > 0.0 && -d <= x <= d
    ensures -1.0 <= x / d <= 1.0 && (x > 0.0 <==> x / d > 0.0) && (x < 0.0 <==> x / d < 0.0)
    ensures (x < d <==> x / d < 1.0) && (x > -d <==> x / d > -1.0) && d * (x / d) == x
  {
    Quotient(x, d);
    Compared(x / d, 1.0, d, x, d);
    Compared(x / d, -1.0, d, x, -d);
    Compared(x / d, 0.0, d, x, 0.0);
  }

  /** Which side of the circle the hue is on, and how far along. */
  lemma HueWhenRed(r: real, g: real, b: real)
    requires r != g || g != b
    requires Largest(r, g, b) == r
    ensures var d, h2 := r - Smallest(r, g, b), Hue(r, g, b);
            if g >= b then 0.0 <= h2 <= 1.0 && d * h2 == g - b && (h2 == 1.0 <==> g == r)
            else 5.0 <= h2 < 6.0 && d * (h2 - 6.0) == g - b
  {
    Ratio(g - b, r - Smallest(r, g, b));
    assert g < b ==> Hue(r, g, b) - 6.0 == (g - b) / (r - Smallest(r, g, b));
  }

  lemma HueWhenGreen(r: real, g: real, b: real)
    requires Largest(r, g, b) == g > r
    ensures var d, h2 := g - Smallest(r, g, b), Hue(r, g, b);
            1.0 < h2 <= 3.0 && d * (h2 - 2.0) == b - r && (h2 < 2.0 <==> b < r) && (h2 == 3.0 <==> b == g)
  {
    Ratio(b - r, g - Smallest(r, g, b));
    assert Hue(r, g, b) - 2.0 == (b - r) / (g - Smallest(r, g, b));
  }

  lemma HueWhenBlue(r: real, g: real, b: real)
    requires b > r && b > g
    ensures var d, h2 := b - Smallest(r, g, b), Hue(r, g, b);
            3.0 < h2 < 5.0 && d * (h2 - 4.0) == r - g && (h2 < 4.0 <==> r < g)
  {
    Ratio(r - g, b - Smallest(r, g, b));
    assert Hue(r, g, b) - 4.0 == (r - g) / (b - Smallest(r, g, b));
  }

  lemma HuePlace(r: real, g: real, b: real)
    requires r != g || g != b
    ensures var max, d, h2 := Largest(r, g, b), Largest(r, g, b) - Smallest(r, g, b), Hue(r, g, b);
            && d > 0.0
            && (max == r && g >= b ==> 0.0 <= h2 <= 1.0 && d * h2 == g - b && (h2 == 1.0 <==> g == max))
            && (max == r && g < b ==> 5.0 <= h2 < 6.0 && d * (h2 - 6.0) == g - b)
            && (max == g > r ==>
                  1.0 < h2 <= 3.0 && d * (h2 - 2.0) == b - r && (h2 < 2.0 <==> b < r) && (h2 == 3.0 <==> b == max))
            && (max == b > r && b > g ==> 3.0 < h2 < 5.0 && d * (h2 - 4.0) == r - g && (h2 < 4.0 <==> r < g))
  {
    hide Hue;
    if Largest(r, g, b) == r {
      HueWhenRed(r, g, b);
    } else if Largest(r, g, b) == g {
      HueWhenGreen(r, g, b);
    } else {
      HueWhenBlue(r, g, b);
    }
  }

  lemma HueMeans(r: real, g: real, b: real)
    ensures 0.0 <= Hue(r, g, b) < 6.0
    ensures RgbToHsv(r, g, b).x == 60.0 * Hue(r, g, b)
  {
    var max, d := Largest(r, g, b), Largest(r, g, b) - Smallest(r, g, b);
    if d > 0.0 {
      HuePlace(r, g, b);
      if max == r {
        Ratio(g - b, d);
        Rem6((g - b) / d, if g >= b then 0 else -1);
      }
    }
    Rem360(60.0 * Hue(r, g, b));
  }

  /** The parts a hue, a chroma and a lowest part stand for. */
  function Parts(h2: real, cc: real, m: real): Triple {
    var x := cc * Tooth(h2);
    if h2 < 1.0 then Triple(cc + m, x + m, m)
    else if h2 < 2.0 then Triple(x + m, cc + m, m)
    else if h2 < 3.0 then Triple(m, cc + m, x + m)
    else if h2 < 4.0 then Triple(m, x + m, cc + m)
    else if h2 < 5.0 then Triple(x + m, m, cc + m)
    else Triple(cc + m, m, x + m)
  }

  lemma SextantParts(h2: real, cc: real, m: real)
    requires 0.0 <= h2 < 6.0
    ensures var t := Sextant(h2, cc); Triple(t.x + m, t.y + m, t.z + m) == Parts(h2, cc, m)
  {
    ToothIs(h2);
    hide Tooth, RemEuclid;
  }

  lemma Unfolded(t: Triple)
    ensures var u := Sextant(RemEuclid(t.x / 60.0, 6.0), t.z * t.y); var m := t.z - t.z * t.y;
            HsvToRgb(t.x, t.y, t.z) == Triple(u.x + m, u.y + m, u.z + m)
  {
    hide RemEuclid;
  }

  lemma FromHue(t: Triple, h2: real, cc: real, m: real)
    requires 0.0 <= h2 < 6.0 && t.x == 60.0 * h2 && cc == t.z * t.y && m == t.z - cc
    ensures HsvToRgb(t.x, t.y, t.z) == Parts(h2, cc, m)
  {
    hide *;
    assert t.x / 60.0 == h2;
    Rem6(h2, 0);
    SextantParts(h2, cc, m);
    Unfolded(t);
    assert Sextant(RemEuclid(t.x / 60.0, 6.0), t.z * t.y) == Sextant(h2, cc);
  }

  lemma PartsOfHue(r: real, g: real, b: real)
    ensures Parts(Hue(r, g, b), Largest(r, g, b) - Smallest(r, g, b), Smallest(r, g, b)) == Triple(r, g, b)
  {
    var d, h2 := Largest(r, g, b) - Smallest(r, g, b), Hue(r, g, b);
    if r != g || g != b {
      HuePlace(r, g, b);
      hide Hue;
      Spread(d, h2);
    } else {
      assert d * Tooth(h2) == 0.0;
    }
  }

  lemma Spread(d: real, h2: real)
    ensures d * (h2 - 6.0) == -(d * (6.0 - h2)) && d * (h2 - 2.0) == -(d * (2.0 - h2))
    ensures d * (h2 - 4.0) == -(d * (4.0 - h2))
    ensures h2 == 1.0 ==> d * h2 == d && d * (2.0 - h2) == d
  {
  }

  lemma SaturationAndValue(r: real, g: real, b: real)
    requires 0.0 <= r && 0.0 <= g && 0.0 <= b
    ensures var max, t := Largest(r, g, b), RgbToHsv(r, g, b);
            t.z == max && max * t.y == max - Smallest(r, g, b) && (max > 0.0 ==> t.y == (max - Smallest(r, g, b)) / max)
  {
  }

  /** To hue-saturation-value and back is the identity, on every colour. */
  lemma RgbRoundTrip(r: real, g: real, b: real)
    requires 0.0 <= r <= 1.0 && 0.0 <= g <= 1.0 && 0.0 <= b <= 1.0
    ensures var t := RgbToHsv(r, g, b); HsvToRgb(t.x, t.y, t.z) == Triple(r, g, b)
  {
    hide *;
    SaturationAndValue(r, g, b);
    HueMeans(r, g, b);
    PartsOfHue(r, g, b);
    FromHue(RgbToHsv(r, g, b), Hue(r, g, b), Largest(r, g, b) - Smallest(r, g, b), Smallest(r, g, b));
  }

  /** The hue found again on each of the six sides. */
  lemma HueNearRed(x: real, cc: real, m: real)
    requires 0.0 <= x <= cc && cc > 0.0
    ensures Hue(cc + m, x + m, m) == x / cc
    ensures x > 0.0 ==> Hue(cc + m, m, x + m) == 6.0 - x / cc
  {
    Opposite(x, cc);
  }

  lemma HueNearGreen(x: real, cc: real, m: real)
    requires 0.0 <= x <= cc && cc > 0.0
    ensures Hue(x + m, cc + m, m) == 2.0 - x / cc
    ensures Hue(m, cc + m, x + m) == 2.0 + x / cc
  {
    Opposite(x, cc);
  }

  lemma HueNearBlue(x: real, cc: real, m: real)
    requires 0.0 <= x <= cc && cc > 0.0
    ensures Hue(m, x + m, cc + m) == 4.0 - x / cc
    ensures Hue(x + m, m, cc + m) == 4.0 + x / cc
  {
    Opposite(x, cc);
  }

  lemma Opposite(x: real, cc: real)
    requires cc > 0.0
    ensures -x / cc == -(x / cc) && (x == cc ==> x / cc == 1.0 && -x / cc == -1.0)
  {
  }

  lemma HueOfParts(h2: real, cc: real, m: real)
    requires 0.0 <= h2 < 6.0 && cc > 0.0
    ensures var t := Parts(h2, cc, m);
            Largest(t.x, t.y, t.z) == cc + m && Smallest(t.x, t.y, t.z) == m && Hue(t.x, t.y, t.z) == h2
  {
    hide Hue;
    var x := cc * Tooth(h2);
    Share(cc, Tooth(h2));
    HueNearRed(x, cc, m);
    HueNearGreen(x, cc, m);
    HueNearBlue(x, cc, m);
  }

  lemma Share(cc: real, f: real)
    requires cc > 0.0 && 0.0 <= f <= 1.0
    ensures cc * f / cc == f && 0.0 <= cc * f <= cc && (f > 0.0 ==> cc * f > 0.0)
  {
  }

  /** To red-green-blue and back is the identity, on every hue short of a full turn with some
      saturation and value. */
  lemma HsvRoundTrip(h: real, s: real, v: real)
    requires 0.0 <= h < 360.0 && 0.0 < s <= 1.0 && 0.0 < v <= 1.0
    ensures var t := HsvToRgb(h, s, v); RgbToHsv(t.x, t.y, t.z) == Triple(h, s, v)
  {
    hide *;
    var h2, cc := h / 60.0, v * s;
    assert 60.0 * h2 == h && cc > 0.0;
    FromHue(Triple(h, s, v), h2, cc, v - cc);
    var t := HsvToRgb(h, s, v);
    HueOfParts(h2, cc, v - cc);
    HueMeans(t.x, t.y, t.z);
    Bounded(s, v);
    PartsAreNotNegative(h2, cc, v - cc);
    SaturationAndValue(t.x, t.y, t.z);
  }

  lemma Bounded(s: real, v: real)
    requires 0.0 < s <= 1.0 && 0.0 < v <= 1.0
    ensures 0.0 < v * s <= v && v * s / v == s
  {
  }

  lemma PartsAreNotNegative(h2: real, cc: real, m: real)
    requires 0.0 <= h2 < 6.0 && cc > 0.0 && m >= 0.0
    ensures var t := Parts(h2, cc, m); 0.0 <= t.x && 0.0 <= t.y && 0.0 <= t.z
  {
    Share(cc, Tooth(h2));
  }

  // ---------- the picker ----------

  function Clamp(x: real): real {
    if x < 0.0 then 0.0 else if x > 1.0 then 1.0 else x
  }

  /** To the nearest byte. */
  function ToByte(x: real): Byte {
    (Clamp(x) * 255.0 + 0.5).Floor
  }

  datatype Picker = Picker(h: real, s: real, v: real, a: Byte)

  function Open(c: Color): Picker {
    var t := RgbToHsv(c.r as real / 255.0, c.g as real / 255.0, c.b as real / 255.0);
    Picker(t.x, t.y, t.z, c.a)
  }

  function Hex(p: Picker, h: real, s: real, v: real): string {
    var t := HsvToRgb(h, s, v);
    ToHex(Color(ToByte(t.x), ToByte(t.y), ToByte(t.z), p.a))
  }

  /** A picker opened on a colour and not moved re-emits that colour, alpha and all, as the
      text that parses back to it. */
  lemma UnmovedPickerReemits(c: Color)
    ensures var p := Open(c); Hex(p, p.h, p.s, p.v) == ToHex(c)
    ensures var p := Open(c); Parse(Hex(p, p.h, p.s, p.v)) == Some(c)
  {
    hide RgbToHsv, HsvToRgb, ToHex, Parse;
    RgbRoundTrip(c.r as real / 255.0, c.g as real / 255.0, c.b as real / 255.0);
    ByteBack(c.r);
    ByteBack(c.g);
    ByteBack(c.b);
    HexReadsBack(c);
  }

  lemma ByteBack(n: Byte)
    ensures ToByte(n as real / 255.0) == n
  {
    assert n as real / 255.0 * 255.0 == n as real;
  }

  /** A grey, black included, has neither hue nor saturation. */
  lemma GreysAreUnsaturated(x: real)
    ensures RgbToHsv(x, x, x) == Triple(0.0, 0.0, x)
  {
    assert RemEuclid(0.0, 360.0) == 0.0;
  }
}
