/** The conversions between sRGB and the HSV and HSL colour spaces (colorspace.cpp), over exact reals. */
module ColorSpace {

  datatype Rgb = Rgb(r: real, g: real, b: real)

  /** A hue in degrees, a saturation, and a value or lightness. */
  datatype Hsx = Hsx(h: real, s: real, x: real)

  function Max3(c: Rgb): (m: real)
    ensures m >= c.r && m >= c.g && m >= c.b && (m == c.r || m == c.g || m == c.b)
  {
    var m := if c.r > c.g then c.r else c.g;
    if m > c.b then m else c.b
  }

  function Min3(c: Rgb): (m: real)
    ensures m <= c.r && m <= c.g && m <= c.b && (m == c.r || m == c.g || m == c.b)
  {
    var m := if c.r < c.g then c.r else c.g;
    if m < c.b then m else c.b
  }

  function Chroma(c: Rgb): (d: real)
    ensures d >= 0.0
  {
    Max3(c) - Min3(c)
  }

  predicate InCube(c: Rgb)
  {
    0.0 <= c.r <= 1.0 && 0.0 <= c.g <= 1.0 && 0.0 <= c.b <= 1.0
  }

  predicate InSpace(c: Hsx)
  {
    0.0 <= c.h < 360.0 && 0.0 <= c.s <= 1.0 && 0.0 <= c.x <= 1.0
  }

  /** Which side of the colour hexagon, and how far along it: 0 up to 6. */
  function Hexagon(c: Rgb): real
    requires Chroma(c) > 0.0
  {
    var d := Chroma(c);
    if Max3(c) == c.r then (c.g - c.b) / d + if c.g < c.b then 6.0 else 0.0
    else if Max3(c) == c.g then 2.0 + (c.b - c.r) / d
    else 4.0 + (c.r - c.g) / d
  }

  function Rgb2Hsv(c: Rgb): Hsx
    requires InCube(c)
  {
    var v := Max3(c);
    if Chroma(c) > 0.0 then Hsx(Hexagon(c) * 60.0, Chroma(c) / v, v) else Hsx(0.0, 0.0, v)
  }

  /** The greatest chroma a lightness allows. */
  function Span(l: real): real { if l <= 0.5 then 2.0 * l else 2.0 - 2.0 * l }

  function Lightness(c: Rgb): real { (Max3(c) + Min3(c)) / 2.0 }

  function Rgb2Hsl(c: Rgb): Hsx
    requires InCube(c)
  {
    var l := Lightness(c);
    assert 0.0 <= Chroma(c) <= Span(l);
    hide Side, Hexagon, Span, Chroma, Max3, Min3;
    if Chroma(c) > 0.0 then Hsx(Hexagon(c) * 60.0, Chroma(c) / Span(l), l)
    else Hsx(0.0, 0.0, l)
  }

  function Abs(x: real): real { if x < 0.0 then -x else x }

  /** The hue as a place on the hexagon. */
  function Reduced(h: real): real
  {
    (h - 360.0 * (h / 360.0).Floor as real) / 60.0
  }

  /** The height of the middle component over the smallest. */
  function Middle(h: real, c: real): real
  {
    c * (1.0 - Abs(h - 2.0 * (h / 2.0).Floor as real - 1.0))
  }

  /** The six-way switch over the side of the hexagon; its default arm is black. */
  function Side(h: real, c: real, min: real): Rgb
  {
    var x := Middle(h, c);
    match h.Floor
    case 0 => Rgb(min + c, min + x, min)
    case 1 => Rgb(min + x, min + c, min)
    case 2 => Rgb(min, min + c, min + x)
    case 3 => Rgb(min, min + x, min + c)
    case 4 => Rgb(min + x, min, min + c)
    case 5 => Rgb(min + c, min, min + x)
    case _ => Rgb(0.0, 0.0, 0.0)
  }

  function Hsv2Rgb(c: Hsx): Rgb
  {
    var d := c.s * c.x;
    Side(Reduced(c.h), d, c.x - d)
  }

  function Hsl2Rgb(c: Hsx): Rgb
  {
    var d := Span(c.x) * c.s;
    Side(Reduced(c.h), d, c.x - 0.5 * d)
  }

  /** The default arm is never taken, whatever the hue; whole turns do not matter. */
  lemma EverySideExists(h: real, turns: int)
    ensures 0.0 <= Reduced(h) < 6.0 && 0 <= Reduced(h).Floor <= 5
    ensures Reduced(h + 360.0 * turns as real) == Reduced(h)
    ensures 0.0 <= h < 360.0 ==> Reduced(h) == h / 60.0
  {
    var q := h / 360.0;
    assert (h + 360.0 * turns as real) / 360.0 == q + turns as real;
    assert (q + turns as real).Floor == q.Floor + turns;
    assert h == 360.0 * q;
  }

  /** How far the middle component is from the smallest, side by side: up on the even sides, down on the
      odd ones. */
  function Part(h: real): (p: real)
    requires 0.0 <= h < 6.0
    ensures 0.0 <= p <= 1.0 && (h.Floor % 2 == 0 ==> p < 1.0) && (h.Floor % 2 == 1 ==> 0.0 < p)
  {
    match h.Floor
    case 0 => h
    case 1 => 2.0 - h
    case 2 => h - 2.0
    case 3 => 4.0 - h
    case 4 => h - 4.0
    case _ => 6.0 - h
  }

  lemma MiddleOf(h: real, c: real)
    requires 0.0 <= h < 6.0
    ensures Middle(h, c) == c * Part(h)
  {
    assert (h / 2.0).Floor == if h < 2.0 then 0 else if h < 4.0 then 1 else 2;
  }

  lemma Times(a: real, x: real)
    requires 0.0 < a && 0.0 <= x <= 1.0
    ensures 0.0 <= a * x <= a && (x < 1.0 ==> a * x < a) && (0.0 < x ==> 0.0 < a * x)
  {
    assert a * (1.0 - x) >= 0.0 && (x < 1.0 ==> a * (1.0 - x) > 0.0);
    assert a * (1.0 - x) == a - a * x;
  }

  lemma NegatedQuotient(a: real, b: real)
    requires b > 0.0
    ensures (-a) / b == -(a / b)
  {
    var n := (-a) / b + a / b;
    assert b * n == b * ((-a) / b) + b * (a / b) == 0.0;
  }

  /** A fraction of a positive number. */
  lemma Fraction(a: real, b: real) returns (q: real)
    requires 0.0 <= a <= b && b > 0.0
    ensures q == a / b && (-a) / b == -q && b * q == a
    ensures 0.0 <= q <= 1.0 && (q == 1.0 <==> a == b) && (q == 0.0 <==> a == 0.0)
  {
    q := a / b;
    assert b * q == a;
    NegatedQuotient(a, b);
    assert b * (q - 1.0) == a - b;
    assert q > 1.0 ==> b * (q - 1.0) > 0.0;
    assert q < 0.0 ==> b * q < 0.0;
    Times(b, q);
  }

  lemma Cancel(a: real, x: real)
    requires a > 0.0
    ensures a * x / a == x && (-(a * x)) / a == -x
  {
    NegatedQuotient(a * x, a);
    var n := a * x / a - x;
    assert a * n == a * (a * x / a) - a * x == 0.0;
  }

  lemma Scaled(d: real, p: real) returns (x: real)
    requires d > 0.0 && 0.0 <= p <= 1.0
    ensures x == d * p && 0.0 <= x <= d && x / d == p && (-x) / d == -p && (x < d <==> p < 1.0)
  {
    x := d * p;
    Times(d, p);
    Cancel(d, p);
  }

  /** A colour is where it lies on the hexagon, stretched to its chroma above its smallest component. */
  lemma SideOfHexagon(c: Rgb)
    requires Chroma(c) > 0.0
    ensures 0.0 <= Hexagon(c) < 6.0
    ensures Side(Hexagon(c), Chroma(c), Min3(c)) == c
  {
    var d, min := Chroma(c), Min3(c);
    var mid := c.r + c.g + c.b - Max3(c) - min;
    var q := Fraction(mid - min, d);
    PlaceOf(c, q);
    MiddleOf(Hexagon(c), d);
  }

  /** The place by the middle component's height q. */
  lemma PlaceOf(c: Rgb, q: real)
    requires Chroma(c) > 0.0 && 0.0 <= q <= 1.0
    requires var a := c.r + c.g + c.b - Max3(c) - 2.0 * Min3(c);
      a / Chroma(c) == q && (-a) / Chroma(c) == -q && (q == 1.0 <==> a == Chroma(c)) && (q == 0.0 <==> a == 0.0)
    ensures 0.0 <= Hexagon(c) < 6.0 && Part(Hexagon(c)) == q
    ensures Hexagon(c).Floor == SideOf(c)
  {
  }

  function SideOf(c: Rgb): int
  {
    if Max3(c) == c.r then (if c.g == c.r && c.b != c.r then 1 else if c.g >= c.b then 0 else 5)
    else if Max3(c) == c.g then (if c.b == c.g then 3 else if c.r > c.b then 1 else 2)
    else if c.g > c.r then 3 else 4
  }

  /** And back: the six sides give back the place on the hexagon, the chroma and the smallest component. */
  lemma HexagonOfSide(h: real, d: real, min: real)
    requires 0.0 <= h < 6.0 && d > 0.0
    ensures var c := Side(h, d, min);
      Max3(c) == min + d && Min3(c) == min && Hexagon(c) == h
  {
    MiddleOf(h, d);
    var p := Part(h);
    var x := Scaled(d, p);
    HexagonAt(Side(h, d, min), h.Floor, d, min, x, p);
  }

  lemma HexagonAt(c: Rgb, side: int, d: real, min: real, x: real, p: real)
    requires d > 0.0 && 0.0 <= x <= d && x / d == p && (-x) / d == -p && (x < d <==> p < 1.0)
    requires side % 2 == 0 ==> p < 1.0
    requires match side
      case 0 => c == Rgb(min + d, min + x, min)
      case 1 => c == Rgb(min + x, min + d, min)
      case 2 => c == Rgb(min, min + d, min + x)
      case 3 => c == Rgb(min, min + x, min + d)
      case 4 => c == Rgb(min + x, min, min + d)
      case 5 => c == Rgb(min + d, min, min + x) && 0.0 < x
      case _ => false
    ensures Max3(c) == min + d && Min3(c) == min
    ensures Hexagon(c) == match side
      case 0 => p
      case 1 => 2.0 - p
      case 2 => 2.0 + p
      case 3 => 4.0 - p
      case 4 => 4.0 + p
      case _ => 6.0 - p
  {
    assert Max3(c) == min + d && Min3(c) == min && Chroma(c) == d;
    SameQuotient(c.g - c.b, if side == 0 then x else if side == 5 then -x else d, d);
    SameQuotient(c.b - c.r, if side == 1 then -x else if side == 2 then x else d, d);
    SameQuotient(c.r - c.g, if side == 3 then -x else x, d);
    hide Max3, Min3, Chroma;
  }

  lemma SameQuotient(a: real, b: real, d: real)
    requires d > 0.0
    ensures a == b ==> a / d == b / d
    ensures d / d == 1.0
  {
  }

  /** A colour without chroma has three equal components. */
  lemma Grey(h: real, min: real)
    ensures Side(Reduced(h), 0.0, min) == Rgb(min, min, min)
  {
    EverySideExists(h, 0);
    MiddleOf(Reduced(h), 0.0);
  }

  lemma InTurn(h: real)
    requires 0.0 <= h < 360.0
    ensures Reduced(h) == h / 60.0
  {
    EverySideExists(h, 0);
  }

  // ----- HSV -----

  lemma ToHsv(c1: Rgb, c: Hsx, d: real)
    requires 0.0 < d <= c.x <= 1.0 && d / c.x == c.s
    requires Max3(c1) == c.x && Min3(c1) == c.x - d && Hexagon(c1) == c.h / 60.0
    ensures InCube(c1) && Rgb2Hsv(c1) == c
  {
  }

  lemma FromHsv(c: Hsx, d: real)
    requires 0.0 <= c.h < 360.0 && c.x * c.s == d
    ensures Hsv2Rgb(c) == Side(c.h / 60.0, d, c.x - d)
  {
    InTurn(c.h);
  }

  /** Main result for HSV, there and back: the identity on the whole colour cube, and in range. */
  lemma HsvOfRgbInverts(c: Rgb)
    requires InCube(c)
    ensures InSpace(Rgb2Hsv(c)) && Hsv2Rgb(Rgb2Hsv(c)) == c
  {
    hide Side, Hexagon;
    if Chroma(c) > 0.0 {
      HsvRange(c);
      HsvAndBack(c, Rgb2Hsv(c));
    } else {
      Grey(0.0, Max3(c));
    }
  }

  lemma HsvRange(c: Rgb)
    requires InCube(c) && Chroma(c) > 0.0
    ensures var h := Rgb2Hsv(c); InSpace(h) && h.x == Max3(c) && h.x * h.s == Chroma(c)
  {
    hide Hexagon, Chroma;
    PlaceInRange(c);
    assert 0.0 < Chroma(c) <= Max3(c) by {
      ChromaBelowMax(c);
    }
    var s := Fraction(Chroma(c), Max3(c));
  }

  lemma ChromaBelowMax(c: Rgb)
    requires InCube(c)
    ensures Chroma(c) <= Max3(c) <= 1.0
  {
  }

  lemma HsvAndBack(c: Rgb, h: Hsx)
    requires Chroma(c) > 0.0 && h.h / 60.0 == Hexagon(c) && h.x == Max3(c) && h.x * h.s == Chroma(c)
    ensures 0.0 <= h.h < 360.0 && Hsv2Rgb(h) == c
  {
    SideOfHexagon(c);
    FromHsv(h, Chroma(c));
  }

  lemma HsvSide(c: Hsx, c1: Rgb, d: real)
    requires InSpace(c) && 0.0 < c.s && 0.0 < c.x && d == c.x * c.s && c1 == Side(c.h / 60.0, d, c.x - d)
    ensures InCube(c1) && Rgb2Hsv(c1) == c
  {
    hide Side, Hexagon;
    Times(c.x, c.s);
    Cancel(c.x, c.s);
    HexagonOfSide(c.h / 60.0, d, c.x - d);
    ToHsv(c1, c, d);
  }

  /** The other way round it is the identity exactly where the colour has a hue, or none is given. */
  lemma RgbOfHsvInverts(c: Hsx)
    requires InSpace(c)
    ensures InCube(Hsv2Rgb(c))
    ensures Rgb2Hsv(Hsv2Rgb(c)) == c <==> (c.s > 0.0 && c.x > 0.0) || (c.h == 0.0 && c.s == 0.0)
  {
    hide Side, Hexagon;
    var d := c.x * c.s;
    FromHsv(c, d);
    if c.s > 0.0 && c.x > 0.0 {
      HsvSide(c, Hsv2Rgb(c), d);
    } else {
      assert d == 0.0;
      InTurn(c.h);
      Grey(c.h, c.x);
    }
  }

  // ----- HSL -----

  lemma ToHsl(c1: Rgb, c: Hsx, d: real)
    requires 0.0 < c.x < 1.0 && 0.0 < d <= Span(c.x) && d / Span(c.x) == c.s
    requires Max3(c1) == c.x + 0.5 * d && Min3(c1) == c.x - 0.5 * d && Hexagon(c1) == c.h / 60.0
    ensures InCube(c1) && Rgb2Hsl(c1) == c
  {
  }

  lemma FromHsl(c: Hsx, d: real)
    requires 0.0 <= c.h < 360.0 && Span(c.x) * c.s == d
    ensures Hsl2Rgb(c) == Side(c.h / 60.0, d, c.x - 0.5 * d)
  {
    InTurn(c.h);
    assert Hsl2Rgb(c) == Side(Reduced(c.h), d, c.x - 0.5 * d);
  }

  /** Main result for HSL, there and back. */
  lemma HslOfRgbInverts(c: Rgb)
    requires InCube(c)
    ensures InSpace(Rgb2Hsl(c)) && Hsl2Rgb(Rgb2Hsl(c)) == c
  {
    hide Side, Hexagon;
    if Chroma(c) > 0.0 {
      HslRange(c);
      HslAndBack(c, Rgb2Hsl(c));
    } else {
      Grey(0.0, Max3(c));
    }
  }

  lemma HslRange(c: Rgb)
    requires InCube(c) && Chroma(c) > 0.0
    ensures var h := Rgb2Hsl(c); InSpace(h) && h.x == Lightness(c) && Span(h.x) * h.s == Chroma(c)
  {
    hide Hexagon, Chroma, Lightness, Span;
    PlaceInRange(c);
    ChromaBelowSpan(c);
    var s := Fraction(Chroma(c), Span(Lightness(c)));
  }

  lemma ChromaBelowSpan(c: Rgb)
    requires InCube(c)
    ensures Chroma(c) <= Span(Lightness(c)) && 0.0 <= Lightness(c) <= 1.0
  {
  }

  lemma PlaceInRange(c: Rgb)
    requires Chroma(c) > 0.0
    ensures 0.0 <= Hexagon(c) < 6.0
  {
    SideOfHexagon(c);
  }

  lemma HslAndBack(c: Rgb, h: Hsx)
    requires Chroma(c) > 0.0 && h.h / 60.0 == Hexagon(c) && h.x == Lightness(c)
    requires Span(h.x) * h.s == Chroma(c)
    ensures 0.0 <= h.h < 360.0 && Hsl2Rgb(h) == c
  {
    SideOfHexagon(c);
    FromHsl(h, Chroma(c));
  }

  lemma HslSide(c: Hsx, c1: Rgb, d: real)
    requires InSpace(c) && 0.0 < c.s && 0.0 < c.x < 1.0 && d == Span(c.x) * c.s
    requires c1 == Side(c.h / 60.0, d, c.x - 0.5 * d)
    ensures InCube(c1) && Rgb2Hsl(c1) == c
  {
    assert Span(c.x) > 0.0;
    hide Side, Hexagon, Rgb2Hsl, InCube, Span;
    Saturation(Span(c.x), c.s, d);
    HslOfSide(c, c1, d);
  }

  lemma Saturation(span: real, s: real, d: real)
    requires 0.0 < s <= 1.0 && 0.0 < span && d == span * s
    ensures 0.0 < d <= span && d / span == s
  {
    Times(span, s);
    Cancel(span, s);
  }

  lemma HslOfSide(c: Hsx, c1: Rgb, d: real)
    requires InSpace(c) && 0.0 < c.x < 1.0 && 0.0 < d <= Span(c.x) && d / Span(c.x) == c.s
    requires c1 == Side(c.h / 60.0, d, c.x - 0.5 * d)
    ensures InCube(c1) && Rgb2Hsl(c1) == c
  {
    hide Side, Hexagon, Span;
    HexagonOfSide(c.h / 60.0, d, c.x - 0.5 * d);
    ToHsl(c1, c, d);
  }

  /** The other way round, for HSL. */
  lemma RgbOfHslInverts(c: Hsx)
    requires InSpace(c)
    ensures InCube(Hsl2Rgb(c))
    ensures Rgb2Hsl(Hsl2Rgb(c)) == c <==> (c.s > 0.0 && 0.0 < c.x < 1.0) || (c.h == 0.0 && c.s == 0.0)
  {
    hide Side, Hexagon;
    var d := Span(c.x) * c.s;
    FromHsl(c, d);
    if c.s > 0.0 && 0.0 < c.x < 1.0 {
      HslSide(c, Hsl2Rgb(c), d);
    } else {
      assert d == 0.0;
      InTurn(c.h);
      Grey(c.h, c.x);
    }
  }
}
