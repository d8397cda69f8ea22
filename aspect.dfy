/**
  The aspect classifier `determineStandardRatio` (handler_upload_video.go).

  The Go code compares the float64 ratio w/h with 16/9 and 9/16 under an
  absolute tolerance of 0.02. Since 0.02 = 1/50, the test
  |w/h - num/den| < 1/50 is the same as 50 * |den*w - num*h| < den * |h|,
  which is what `NearRatio` computes on integers; `NearRatioIsTolerance`
  proves the two agree on exact reals.
 */
module Aspect {

  const Landscape: string := "16:9"
  const Portrait: string := "9:16"
  const Other: string := "other"

  /** The tolerance, 0.02. */
  const Epsilon: real := 0.02

  function Abs(x: int): nat {
    if x < 0 then -x else x
  }

  function AbsReal(x: real): real {
    if x < 0.0 then -x else x
  }

  /** |w/h - num/den| < 1/50, by cross-multiplication; false when h == 0. */
  predicate NearRatio(w: int, h: int, num: int, den: int)
    requires den > 0
  {
    50 * Abs(den * w - num * h) < den * Abs(h)
  }

  /** The exact-real statement of the tolerance test on w/h. */
  ghost predicate WithinEpsilon(w: int, h: int, target: real)
    requires h != 0
  {
    AbsReal(w as real / h as real - target) < Epsilon
  }

  /** "16:9", "9:16" or "other"; a zero height is "other" without dividing. */
  function DetermineStandardRatio(w: int, h: int): (r: string)
    ensures r == Landscape || r == Portrait || r == Other
    ensures h == 0 ==> r == Other
  {
    if h == 0 then Other
    else if NearRatio(w, h, 16, 9) then Landscape
    else if NearRatio(w, h, 9, 16) then Portrait
    else Other
  }

  lemma QuotientDifference(wr: real, hr: real, nr: real, dr: real)
    requires hr != 0.0 && dr != 0.0
    ensures (wr / hr - nr / dr) * (hr * dr) == wr * dr - nr * hr
  {
    assert (wr / hr) * hr == wr;
    assert (nr / dr) * dr == nr;
    calc {
      (wr / hr - nr / dr) * (hr * dr);
      ((wr / hr) * hr) * dr - ((nr / dr) * dr) * hr;
    }
  }

  lemma AbsProduct(q: real, m: real)
    ensures AbsReal(q * m) == AbsReal(q) * AbsReal(m)
  {
  }

  lemma ScaleLessReal(a: real, e: real, m: real)
    requires m > 0.0
    ensures a < e <==> a * m < e * m
  {
  }

  lemma IntProductAsReal(a: int, b: int)
    ensures (a * b) as real == a as real * b as real
  {
  }

  lemma AbsAsReal(x: int)
    ensures Abs(x) as real == AbsReal(x as real)
  {
  }

  /** The two integers NearRatio compares, as reals. */
  lemma CrossTermsAsReal(w: int, h: int, num: int, den: int)
    requires den > 0
    ensures (den * w - num * h) as real == w as real * den as real - num as real * h as real
    ensures (den * Abs(h)) as real == AbsReal(h as real * den as real)
  {
    IntProductAsReal(den, w);
    IntProductAsReal(num, h);
    IntProductAsReal(den, Abs(h));
    AbsAsReal(h);
    AbsProduct(h as real, den as real);
  }

  /** 50a < b iff |q| < 1/50, when |q| * b = a and b > 0. */
  lemma ToleranceByCrossMultiplying(a: int, b: int, absQ: real)
    requires b > 0 && absQ * b as real == a as real
    ensures 50 * a < b <==> absQ < Epsilon
  {
    ScaleLessReal(absQ, Epsilon, b as real);
  }

  lemma NearRatioIsTolerance(w: int, h: int, num: int, den: int)
    requires h != 0 && den > 0
    ensures NearRatio(w, h, num, den) <==> WithinEpsilon(w, h, num as real / den as real)
  {
    var wr, hr, nr, dr := w as real, h as real, num as real, den as real;
    var q := wr / hr - nr / dr;
    var a, b := Abs(den * w - num * h), den * Abs(h);
    assert AbsReal(q) * b as real == a as real by {
      CrossTermsAsReal(w, h, num, den);
      AbsAsReal(den * w - num * h);
      QuotientDifference(wr, hr, nr, dr);
      AbsProduct(q, hr * dr);
    }
    assert b > 0 by {
      assert Abs(h) > 0;
      ScaleLess(den, 0, Abs(h));
    }
    ToleranceByCrossMultiplying(a, b, AbsReal(q));
  }

  /**
    The classifier against the exact-real statement of the Go switch: the 16:9
    test comes first, the 9:16 test applies only when it fails, and everything
    else (zero height included) is "other".
   */
  lemma DetermineStandardRatioMeaning(w: int, h: int)
    ensures DetermineStandardRatio(w, h) == Landscape <==>
      h != 0 && WithinEpsilon(w, h, 16.0 / 9.0)
    ensures DetermineStandardRatio(w, h) == Portrait <==>
      h != 0 && !WithinEpsilon(w, h, 16.0 / 9.0) && WithinEpsilon(w, h, 9.0 / 16.0)
    ensures DetermineStandardRatio(w, h) == Other <==>
      h == 0 || (!WithinEpsilon(w, h, 16.0 / 9.0) && !WithinEpsilon(w, h, 9.0 / 16.0))
  {
    if h != 0 {
      NearRatioIsTolerance(w, h, 16, 9);
      NearRatioIsTolerance(w, h, 9, 16);
    }
  }

  /** No (w, h) lies in both tolerance bands, so the order of the two tests does not matter. */
  lemma BandsDisjoint(w: int, h: int)
    ensures !(NearRatio(w, h, 16, 9) && NearRatio(w, h, 9, 16))
  {
    if h > 0 {
      if NearRatio(w, h, 16, 9) {
        assert 450 * w > 791 * h;
      }
    } else if h < 0 {
      if NearRatio(w, h, 16, 9) {
        assert 450 * w < 791 * h;
      }
    }
  }

  /** The classification depends only on the ratio w/h: scaling both sides keeps it. */
  lemma ScalingKeepsClass(w: int, h: int, k: int)
    requires k != 0
    ensures DetermineStandardRatio(k * w, k * h) == DetermineStandardRatio(w, h)
  {
    ScaledNear(w, h, k, 16, 9);
    ScaledNear(w, h, k, 9, 16);
    assert k * h == 0 <==> h == 0;
  }

  lemma ScaledNear(w: int, h: int, k: int, num: int, den: int)
    requires k != 0 && den > 0
    ensures NearRatio(k * w, k * h, num, den) <==> NearRatio(w, h, num, den)
  {
    ScaledTerms(w, h, k, num, den);
    ScaledCompare(Abs(k), Abs(den * w - num * h), den * Abs(h),
      Abs(den * (k * w) - num * (k * h)), den * Abs(k * h));
  }

  /** The two sides of NearRatio for (k*w, k*h) are |k| times those for (w, h). */
  lemma ScaledTerms(w: int, h: int, k: int, num: int, den: int)
    ensures Abs(den * (k * w) - num * (k * h)) == Abs(k) * Abs(den * w - num * h)
    ensures den * Abs(k * h) == Abs(k) * (den * Abs(h))
  {
    var cross := den * w - num * h;
    assert den * (k * w) == k * (den * w) && num * (k * h) == k * (num * h);
    assert k * (den * w) - k * (num * h) == k * cross;
    AbsMul(k, cross);
    AbsMul(k, h);
    assert den * (Abs(k) * Abs(h)) == Abs(k) * (den * Abs(h));
  }

  /** Multiplying both sides of 50x < y by the same positive factor keeps the comparison. */
  lemma ScaledCompare(factor: int, x: int, y: int, sx: int, sy: int)
    requires factor > 0 && sx == factor * x && sy == factor * y
    ensures 50 * sx < sy <==> 50 * x < y
  {
    assert 50 * sx == factor * (50 * x);
    ScaleLess(factor, 50 * x, y);
  }

  lemma AbsMul(x: int, y: int)
    ensures Abs(x * y) == Abs(x) * Abs(y)
  {
    if x < 0 && y < 0 {
      assert x * y == (-x) * (-y);
    } else if x < 0 {
      assert -(x * y) == (-x) * y;
    } else if y < 0 {
      assert -(x * y) == x * (-y);
    }
  }

  lemma ScaleLess(k: int, a: int, b: int)
    requires k > 0
    ensures k * a < k * b <==> a < b
  {
    if a < b {
      assert k * b - k * a == k * (b - a);
    } else {
      assert k * a - k * b == k * (a - b);
    }
  }

  /** Concrete points: 1920x1080, its transpose, and the band edge at +0.019, +0.02 and +0.021. */
  lemma KnownRatios()
    ensures DetermineStandardRatio(1920, 1080) == Landscape
    ensures DetermineStandardRatio(1080, 1920) == Portrait
    ensures DetermineStandardRatio(640, 480) == Other
    // 16/9 + 0.019, 16/9 + 0.02 and 16/9 + 0.021 at height 9000
    ensures DetermineStandardRatio(16171, 9000) == Landscape
    ensures DetermineStandardRatio(16180, 9000) == Other
    ensures DetermineStandardRatio(16189, 9000) == Other
    ensures DetermineStandardRatio(16000, 0) == Other
  {
  }
}
