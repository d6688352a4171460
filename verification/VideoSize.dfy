/**
  The video size of getMediaDescription in src/vc/helpers.go: fit into 1280 x 720, keep the aspect ratio,
  round both sides down to even numbers. Scaling is exact here: int(float64(newW) / ratio) is the integer
  part of newW * h / w.
*/
module VideoSize {
  import opened Common

  const WIDTH := 1280
  const HEIGHT := 720

  function EvenBelow(n: nat): (r: nat)
    ensures r % 2 == 0 && r <= n < r + 2
  {
    n - n % 2
  }

  /** Does the width decide the size? Otherwise the height does. */
  predicate WidthBinds(w: nat, h: nat)
    requires w > 0
  {
    Min(w, WIDTH) * h / w <= HEIGHT
  }

  /** `n` is `exact = p / q` rounded down, less one if that is odd: within two below, never above. */
  predicate JustBelow(n: int, p: int, q: int) {
    n * q <= p < (n + 2) * q
  }

  lemma DivBounds(p: nat, q: nat)
    requires q > 0
    ensures p / q * q <= p < (p / q + 1) * q
  {
  }

  lemma Within(n: nat, k: nat, p: nat, q: nat)
    requires n <= k < n + 2 && k * q <= p < (k + 1) * q
    ensures JustBelow(n, p, q)
  {
    Scale(n, k, q);
    Scale(k + 1, n + 2, q);
  }

  lemma EvenIsJustBelow(p: nat, q: nat)
    requires q > 0
    ensures JustBelow(EvenBelow(p / q), p, q)
  {
    var k: nat := p / q;
    DivBounds(p, q);
    Within(EvenBelow(k), k, p, q);
  }

  lemma Scale(a: nat, b: nat, q: nat)
    requires a <= b
    ensures a * q <= b * q
  {
  }

  /** Bounds on a quotient, as bounds on the dividend. */
  lemma DivAtMost(p: nat, q: nat, d: nat)
    requires q > 0
    ensures p / q <= d <==> p < (d + 1) * q
    ensures p / q >= d <==> p >= d * q
  {
    DivBounds(p, q);
    var k := p / q;
    if k <= d {
      Scale(k + 1, d + 1, q);
    } else {
      Scale(d + 1, k, q);
    }
    if k >= d {
      Scale(d, k, q);
    } else {
      Scale(k + 1, d, q);
    }
  }

  /**
    The computation of getMediaDescription. Unknown dimensions give the full size. Otherwise both sides are
    even, fit the box and the original, and the side that does not bind is just below its exact value.
  */
  method Fit(originalWidth: int, originalHeight: int) returns (width: nat, height: nat)
    ensures originalWidth <= 0 || originalHeight <= 0 ==> width == WIDTH && height == HEIGHT
    ensures originalWidth > 0 && originalHeight > 0 ==>
              Fits(originalWidth, originalHeight, width, height)
  {
    width, height := WIDTH, HEIGHT;
    if originalWidth > 0 && originalHeight > 0 {
      var newW := Min(originalWidth, width);
      var newH: nat := newW * originalHeight / originalWidth;
      EvenIsJustBelow(newW * originalHeight, originalWidth);
      WidthFits(originalWidth, originalHeight);
      if newH > height {
        newH := height;
        newW := newH * originalWidth / originalHeight;
        EvenIsJustBelow(newH * originalWidth, originalHeight);
        HeightFits(originalWidth, originalHeight);
      }
      if newW % 2 != 0 {
        newW := newW - 1;
      }
      if newH % 2 != 0 {
        newH := newH - 1;
      }
      width, height := newW, newH;
    }
  }

  /** What the size promises for a w x h original. */
  ghost predicate Fits(w: nat, h: nat, width: nat, height: nat)
    requires w > 0
  {
    && width % 2 == 0 && height % 2 == 0
    && width <= Min(w, WIDTH) && height <= Min(h, HEIGHT)
    && if WidthBinds(w, h)
       then width == EvenBelow(Min(w, WIDTH)) && JustBelow(height, Min(w, WIDTH) * h, w)
       else height == HEIGHT && JustBelow(width, HEIGHT * w, h)
  }

  lemma WidthFits(w: nat, h: nat)
    requires w > 0
    ensures Min(w, WIDTH) * h / w <= h
  {
    assert Min(w, WIDTH) * h <= w * h;
    assert w * h < (h + 1) * w;
    DivAtMost(Min(w, WIDTH) * h, w, h);
  }

  lemma HeightFits(w: nat, h: nat)
    requires w > 0 && h > 0 && !WidthBinds(w, h)
    ensures HEIGHT * w / h <= Min(w, WIDTH) && h >= HEIGHT
  {
    var b := Min(w, WIDTH);
    DivAtMost(b * h, w, HEIGHT);
    assert b * h >= (HEIGHT + 1) * w;
    assert HEIGHT * w < (b + 1) * h by {
      assert (b + 1) * h == b * h + h;
    }
    DivAtMost(HEIGHT * w, h, b);
    assert b * h <= w * h;
    assert h < HEIGHT ==> w * h <= HEIGHT * w;
  }

  /** At least 2 x 2, and neither side too much longer than the other. */
  predicate NotDegenerate(w: nat, h: nat) {
    w >= 2 && h >= 2 && w <= 640 * h && h <= 360 * w
  }

  lemma EvenPositive(n: nat, p: nat, q: nat)
    requires q > 0 && n % 2 == 0 && JustBelow(n, p, q)
    ensures n > 0 <==> p >= 2 * q
  {
    if n > 0 {
      Scale(2, n, q);
    }
  }

  lemma PositiveWhenWidthBinds(w: nat, h: nat)
    requires w > 0 && h > 0 && WidthBinds(w, h)
    ensures w >= 2 && Min(w, WIDTH) * h >= 2 * w <==> NotDegenerate(w, h)
  {
    DivAtMost(Min(w, WIDTH) * h, w, HEIGHT);
    if w <= WIDTH {
      assert w * h < 721 * w;
      assert h <= 720 && (w * h >= 2 * w <==> h >= 2) by { ProductBounds(w, h); }
    }
  }

  lemma ProductBounds(w: nat, h: nat)
    requires w > 0 && w * h < 721 * w
    ensures h <= 720 && (w * h >= 2 * w <==> h >= 2)
  {
    if h >= 721 {
      Scale(721, h, w);
    }
    if h >= 2 {
      Scale(2, h, w);
    } else {
      Scale(h, 1, w);
    }
  }

  lemma PositiveWhenHeightBinds(w: nat, h: nat)
    requires w > 0 && h > 0 && !WidthBinds(w, h)
    ensures HEIGHT * w >= 2 * h <==> NotDegenerate(w, h)
  {
    DivAtMost(Min(w, WIDTH) * h, w, HEIGHT);
    HeightFits(w, h);
    Scale(Min(w, WIDTH), WIDTH, h);
    assert 721 * w <= 1280 * h;
    assert w == 1 ==> h >= 721;
  }

  /** A 1 x 1 video is scaled to nothing. */
  lemma OnePixelVanishes(width: nat, height: nat)
    requires Fits(1, 1, width, height)
    ensures width == 0 && height == 0
  {
    assert WidthBinds(1, 1);
  }

  /**
    "Scaled sizes are positive" is false, as for 1 x 1. Both sides are positive exactly when the original is
    at least 2 x 2, no wider than 640 times its height, and no higher than 360 times its width.
  */
  lemma PositiveIffNotDegenerate(w: nat, h: nat, width: nat, height: nat)
    requires w > 0 && h > 0 && Fits(w, h, width, height)
    ensures width > 0 && height > 0 <==> NotDegenerate(w, h)
  {
    if WidthBinds(w, h) {
      EvenPositive(height, Min(w, WIDTH) * h, w);
      PositiveWhenWidthBinds(w, h);
    } else {
      EvenPositive(width, HEIGHT * w, h);
      PositiveWhenHeightBinds(w, h);
    }
  }
}
