/** The scroll-to-frame arithmetic of `handleScroll`: a scroll offset and a viewport
    height become a frame number in [1, totalFrames]. Both intro screens run it, with
    different scroll distances; only one of them tests for offset 0 explicitly.
    Numbers are exact reals here, where the browser uses doubles. */
module ScrollMapper {

  /** What distinguishes the two copies of the mapper. */
  datatype MapperConfig = MapperConfig(
    totalFrames: nat,        // frames in the animation
    scrollsToComplete: real, // viewport heights of scrolling that play the whole animation
    zeroIsFirstFrame: bool)  // the copy has the explicit `scrollY === 0` branch

  predicate ValidMapper(c: MapperConfig) {
    c.totalFrames >= 1 && c.scrollsToComplete > 0.0
  }

  /** `Math.ceil`: the least integer not below x. */
  function Ceil(x: real): (r: int)
    ensures (r - 1) as real < x <= r as real
  {
    -((-x).Floor)
  }

  function MinInt(a: int, b: int): int { if a <= b then a else b }
  function MaxInt(a: int, b: int): int { if a >= b then a else b }

  /** The scroll distance that plays the whole animation. */
  function TotalScrollDistance(c: MapperConfig, innerHeight: real): (d: real)
    requires ValidMapper(c) && innerHeight > 0.0
    ensures d > 0.0
  {
    PositiveProduct(innerHeight, c.scrollsToComplete);
    innerHeight * c.scrollsToComplete
  }

  lemma PositiveProduct(a: real, b: real)
    requires a > 0.0 && b > 0.0
    ensures a * b > 0.0
  {
  }

  lemma ScaleMonotone(x: real, a: real, b: real)
    requires x >= 0.0 && a <= b
    ensures x * a <= x * b
  {
    assert x * b - x * a == x * (b - a);
  }

  lemma MulFacts(x: real, a: real, b: real)
    ensures x > 0.0 && a > 0.0 ==> Mul(x, a) > 0.0
    ensures x >= 0.0 && a <= b ==> Mul(x, a) <= Mul(x, b)
    ensures Mul(x, a) == Mul(a, x)
    ensures Mul(x, 1.0) == x
  {
    if x >= 0.0 && a <= b {
      ScaleMonotone(x, a, b);
    }
  }

  /** The offset clamped to the scroll distance, as a fraction of it: never above 1,
      exactly 1 from the end of the distance on, and of the sign of the offset. */
  function ScrollFraction(scrollY: real, total: real): (f: real)
    requires total > 0.0
    ensures f <= 1.0
    ensures scrollY >= total ==> f == 1.0
    ensures scrollY <= 0.0 ==> f <= 0.0
    ensures scrollY > 0.0 ==> f > 0.0
  {
    var effective := if scrollY <= total then scrollY else total;
    QuotientFacts(effective, total);
    effective / total
  }

  /** Dividing by a positive number keeps the sign, and a numerator at most the
      divisor gives at most 1. */
  lemma QuotientFacts(a: real, d: real)
    requires d > 0.0
    ensures a > 0.0 ==> a / d > 0.0
    ensures a <= 0.0 ==> a / d <= 0.0
    ensures a <= d ==> a / d <= 1.0
    ensures a == d ==> a / d == 1.0
  {
    var q := a / d;
    assert q * d == a;
    if a <= d && q > 1.0 {
      assert q * d - d == (q - 1.0) * d;
      PositiveProduct(q - 1.0, d);
    }
    if a <= 0.0 && q > 0.0 {
      PositiveProduct(q, d);
    }
  }

  /** Real multiplication, kept as one term so that the facts proved about it below
      apply to a square without the solver re-deriving them each time. */
  function Mul(a: real, b: real): real
  {
    a * b
  }

  /** `Math.pow(x, 2)`. */
  function Square(x: real): real
  {
    Mul(x, x)
  }

  /** The ease-in curve applied to the back half of the scroll range. */
  function Remap(f: real): (g: real)
    ensures f <= 0.5 ==> g == f
    ensures f > 0.5 ==> g > 0.5
    ensures f <= 1.0 ==> g <= f
  {
    if f > 0.5 then
      SquareBounds((f - 0.5) * 2.0);
      0.5 + Square((f - 0.5) * 2.0) / 2.0
    else f
  }

  /** The curve maps the back half (0.5, 1] into itself, at or below the identity, and
      keeps both ends: it only slows the frames down before catching up at the end. */
  lemma RemapRange(f: real)
    ensures f <= 0.5 ==> Remap(f) == f
    ensures 0.5 < f <= 1.0 ==> 0.5 < Remap(f) <= f
    ensures f == 1.0 ==> Remap(f) == 1.0
  {
    if f > 0.5 {
      SquareBounds((f - 0.5) * 2.0);
    }
  }

  lemma SquareBounds(g: real)
    requires g > 0.0
    ensures 0.0 < Square(g)
    ensures g <= 1.0 ==> Square(g) <= g
  {
    MulFacts(g, g, 1.0);
  }

  /** `Math.max(1, Math.min(totalFrames, Math.ceil(fraction * totalFrames)))`. */
  function FrameOfFraction(f: real, totalFrames: nat): (frame: int)
    requires totalFrames >= 1
    ensures 1 <= frame <= totalFrames
  {
    MaxInt(1, MinInt(totalFrames, Ceil(f * totalFrames as real)))
  }

  /** The frame `handleScroll` shows for a scroll offset and a viewport height. */
  function MapFrame(c: MapperConfig, scrollY: real, innerHeight: real): (frame: int)
    requires ValidMapper(c) && innerHeight > 0.0
    ensures 1 <= frame <= c.totalFrames
  {
    var fraction := Remap(ScrollFraction(scrollY, TotalScrollDistance(c, innerHeight)));
    if c.zeroIsFirstFrame && scrollY == 0.0 then 1
    else FrameOfFraction(fraction, c.totalFrames)
  }

  /** At the top of the page, and at any negative offset, the first frame is shown,
      whether or not the copy tests for offset 0. */
  lemma MapFrameAtTop(c: MapperConfig, scrollY: real, innerHeight: real)
    requires ValidMapper(c) && innerHeight > 0.0 && scrollY <= 0.0
    ensures MapFrame(c, scrollY, innerHeight) == 1
  {
    var f := ScrollFraction(scrollY, TotalScrollDistance(c, innerHeight));
    assert f * c.totalFrames as real <= 0.0 by {
      assert f <= 0.0 && c.totalFrames as real > 0.0;
    }
  }

  /** From the end of the scroll distance on, the last frame is shown. */
  lemma MapFramePastEnd(c: MapperConfig, scrollY: real, innerHeight: real)
    requires ValidMapper(c) && innerHeight > 0.0
    requires scrollY >= innerHeight * c.scrollsToComplete
    ensures MapFrame(c, scrollY, innerHeight) == c.totalFrames
  {
    RemapRange(1.0);
  }

  /** The explicit offset-0 branch changes nothing: for one configuration, the mapper with
      and without it gives the same frame at every offset. */
  lemma ZeroBranchRedundant(c: MapperConfig, scrollY: real, innerHeight: real)
    requires ValidMapper(c) && innerHeight > 0.0
    ensures MapFrame(c.(zeroIsFirstFrame := true), scrollY, innerHeight)
         == MapFrame(c.(zeroIsFirstFrame := false), scrollY, innerHeight)
  {
    var on, off := c.(zeroIsFirstFrame := true), c.(zeroIsFirstFrame := false);
    assert TotalScrollDistance(on, innerHeight) == TotalScrollDistance(off, innerHeight);
    if scrollY == 0.0 {
      MapFrameAtTop(off, scrollY, innerHeight);
    }
  }

  lemma CeilMonotone(x: real, y: real)
    requires x <= y
    ensures Ceil(x) <= Ceil(y)
  {
  }

  lemma DivideMonotone(a: real, b: real, d: real)
    requires a <= b && d > 0.0
    ensures a / d <= b / d
  {
    assert b / d - a / d == (b - a) / d;
  }

  lemma ScrollFractionMonotone(a: real, b: real, total: real)
    requires a <= b && total > 0.0
    ensures ScrollFraction(a, total) <= ScrollFraction(b, total)
  {
    var ea := if a <= total then a else total;
    var eb := if b <= total then b else total;
    DivideMonotone(ea, eb, total);
  }

  /** The ease-in curve never reverses the order of two fractions. */
  lemma RemapMonotone(a: real, b: real)
    requires a <= b
    ensures Remap(a) <= Remap(b)
  {
    if a > 0.5 {
      var u, v := (a - 0.5) * 2.0, (b - 0.5) * 2.0;
      MulFacts(u, u, v);
      MulFacts(v, u, v);
      assert Square(u) <= Square(v);
    }
  }

  lemma FrameOfFractionMonotone(f: real, g: real, n: nat)
    requires f <= g && n >= 1
    ensures FrameOfFraction(f, n) <= FrameOfFraction(g, n)
  {
    assert f * n as real <= g * n as real;
    CeilMonotone(f * n as real, g * n as real);
  }

  /** Scrolling further down never shows an earlier frame. */
  lemma MapFrameMonotone(c: MapperConfig, a: real, b: real, innerHeight: real)
    requires ValidMapper(c) && innerHeight > 0.0 && a <= b
    ensures MapFrame(c, a, innerHeight) <= MapFrame(c, b, innerHeight)
  {
    var total := TotalScrollDistance(c, innerHeight);
    ScrollFractionMonotone(a, b, total);
    RemapMonotone(ScrollFraction(a, total), ScrollFraction(b, total));
    FrameOfFractionMonotone(Remap(ScrollFraction(a, total)), Remap(ScrollFraction(b, total)), c.totalFrames);
    if b == 0.0 {
      MapFrameAtTop(c, a, innerHeight);
    }
  }

  function Abs(x: real): real
  {
    if x < 0.0 then -x else x
  }

  /** On fractions up to 1 the curve moves no value further from the midpoint than it
      already is, so the two halves of the curve meet without a jump at 0.5. */
  lemma RemapContinuousAtMidpoint(f: real)
    requires f <= 1.0
    ensures Abs(Remap(f) - 0.5) <= Abs(f - 0.5)
  {
    RemapRange(f);
  }

  /** Up to the midpoint of the scroll distance, a positive offset shows the frame
      `ceil(fraction * totalFrames)`, with no clamping at either end. */
  lemma LowerHalfIsLinear(c: MapperConfig, scrollY: real, innerHeight: real)
    requires ValidMapper(c) && innerHeight > 0.0 && scrollY > 0.0
    requires scrollY <= innerHeight * c.scrollsToComplete / 2.0
    ensures var f := ScrollFraction(scrollY, innerHeight * c.scrollsToComplete);
      f <= 0.5 && MapFrame(c, scrollY, innerHeight) == Ceil(f * c.totalFrames as real)
  {
    var total := TotalScrollDistance(c, innerHeight);
    assert total == innerHeight * c.scrollsToComplete;
    HalfQuotient(scrollY, total);
    var f := ScrollFraction(scrollY, total);
    assert f == scrollY / total;
    ProductWithin(f, c.totalFrames as real);
  }

  /** An offset in the first half of a positive distance is a fraction in (0, 0.5]. */
  lemma HalfQuotient(a: real, d: real)
    requires d > 0.0 && 0.0 < a <= d / 2.0
    ensures 0.0 < a / d <= 0.5
  {
    DivideMonotone(a, d / 2.0, d);
    QuotientFacts(a, d);
  }

  /** A fraction in (0, 1] of a positive count lies in (0, count]. */
  lemma ProductWithin(f: real, n: real)
    requires 0.0 < f <= 1.0 && n > 0.0
    ensures 0.0 < f * n <= n
  {
    PositiveProduct(f, n);
    ScaleMonotone(n, f, 1.0);
  }

  /** The first screen: 160 frames over two viewport heights, with the offset-0 branch. */
  const TornoMapper := MapperConfig(160, 2.0, true)
  /** The second screen: 160 frames over 1.2 viewport heights. */
  const FresadoraMapper := MapperConfig(160, 1.2, false)

  /** With an 800-unit viewport the first screen spans 1600 units: the top shows frame 1,
      the midpoint frame 80, the end and anything past it frame 160. */
  lemma TornoScenario()
    ensures MapFrame(TornoMapper, 0.0, 800.0) == 1
    ensures MapFrame(TornoMapper, 800.0, 800.0) == 80
    ensures MapFrame(TornoMapper, 1600.0, 800.0) == 160
    ensures MapFrame(TornoMapper, 3000.0, 800.0) == 160
  {
    assert ScrollFraction(800.0, 1600.0) == 0.5;
    assert Ceil(0.5 * 160.0) == 80;
  }

  /** With a 1000-unit viewport the second screen spans 1200 units; offset 1100 is the
      fraction 11/12, which the curve takes to 61/72, and 61/72 * 160 lies in (135, 136]. */
  lemma FresadoraScenario()
    ensures MapFrame(FresadoraMapper, 1100.0, 1000.0) == 136
  {
    assert ScrollFraction(1100.0, 1200.0) == 11.0 / 12.0;
    assert Remap(11.0 / 12.0) == 61.0 / 72.0;
    assert Ceil(61.0 / 72.0 * 160.0) == 136;
  }
}
