/** What the coordinates of a colour mean, told apart from the conversions (colorspace.cpp:401-605). */
module ColorLaws {
  import opened ColorSpace

  /** What the coordinates mean: the value is the greatest component and the lightness the mean of the greatest
      and the smallest; the saturation is 0 for greys alone and 1 in HSV exactly when a component is missing. */
  lemma CoordinatesMean(c: Rgb)
    requires InCube(c)
    ensures var v := Rgb2Hsv(c).x; (v == c.r || v == c.g || v == c.b) && v >= c.r && v >= c.g && v >= c.b
    ensures Rgb2Hsv(c).s == 0.0 <==> c.r == c.g == c.b
    ensures Rgb2Hsv(c).s == 1.0 <==> !(c.r == c.g == c.b) && (c.r == 0.0 || c.g == 0.0 || c.b == 0.0)
    ensures 2.0 * Rgb2Hsl(c).x == Max3(c) + Min3(c)
  {
    var v, d := Max3(c), Chroma(c);
    if d > 0.0 {
      assert v > 0.0 && d / v * v == d;
    }
  }

  /** Where a pure colour lies on the circle: red at 0, green at 120, blue at 240 degrees. */
  lemma PureHue(c: Rgb, hue: real)
    requires (c, hue) in {(Rgb(1.0, 0.0, 0.0), 0.0), (Rgb(0.0, 1.0, 0.0), 120.0), (Rgb(0.0, 0.0, 1.0), 240.0)}
    ensures Rgb2Hsv(c) == Hsx(hue, 1.0, 1.0) && Rgb2Hsl(c) == Hsx(hue, 1.0, 0.5)
  {
    assert Max3(c) == 1.0 && Min3(c) == 0.0 && Chroma(c) == 1.0;
    assert Span(0.5) == 1.0 && Lightness(c) == 0.5;
    assert Hexagon(c) * 60.0 == hue;
    hide Max3, Min3, Chroma, Hexagon, Span;
  }
}
