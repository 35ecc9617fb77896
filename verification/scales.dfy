/**
 The two coordinate mappings of the chart (static/script.js:45-51): a time
 scale from the date extent onto `[0, Width]` and a padded linear price scale
 onto the inverted range `[Height, 0]`. Both are d3 continuous scales without
 clamping, modelled exactly over the reals.
 */
module Scales {
  import opened Common

  /** Plot size inside the margins: 900 - 60 - 30 by 450 - 20 - 30 pixels. */
  const MarginTop: real := 20.0
  const MarginRight: real := 30.0
  const MarginBottom: real := 30.0
  const MarginLeft: real := 60.0
  const Width: real := 900.0 - MarginLeft - MarginRight
  const Height: real := 450.0 - MarginTop - MarginBottom

  /** Padding factors of the price domain. */
  const LowPad: real := 0.98
  const HighPad: real := 1.02

  /**
   A d3 continuous linear scale from domain `[d0, d1]` to range `[r0, r1]`.
   A degenerate domain normalises every value to one half, so it maps onto
   the middle of the range; inversion likewise for a degenerate range.
   */
  datatype Linear = Linear(d0: real, d1: real, r0: real, r1: real) {

    function Apply(v: real): (p: real)
      ensures d0 != d1 && v == d0 ==> p == r0
      ensures d0 != d1 && v == d1 ==> p == r1
      ensures d0 == d1 ==> 2.0 * p == r0 + r1
    {
      if d0 == d1 then r0 + (r1 - r0) / 2.0
      else
        Ends(v - d0, d1 - d0, r1 - r0);
        r0 + (v - d0) / (d1 - d0) * (r1 - r0)
    }

    function Invert(p: real): (v: real)
      ensures r0 != r1 && p == r0 ==> v == d0
      ensures r0 != r1 && p == r1 ==> v == d1
      ensures r0 == r1 ==> 2.0 * v == d0 + d1
    {
      if r0 == r1 then d0 + (d1 - d0) / 2.0
      else
        Ends(p - r0, r1 - r0, d1 - d0);
        d0 + (p - r0) / (r1 - r0) * (d1 - d0)
    }
  }

  /**
   The ends of a proper scale normalise to 0 and 1: a zero offset scales to
   zero and the full extent `k` scales to the whole width `w`.
   */
  lemma Ends(x: real, k: real, w: real)
    requires k != 0.0
    ensures x == 0.0 ==> x / k * w == 0.0
    ensures x == k ==> x / k * w == w
  {
    if x == k {
      assert x / k == 1.0;
    }
  }

  /** `Apply` is the affine map through (d0, r0) and (d1, r1). */
  lemma ApplyAffine(s: Linear, v: real)
    requires s.d0 != s.d1
    ensures (s.Apply(v) - s.r0) * (s.d1 - s.d0) == (v - s.d0) * (s.r1 - s.r0)
  {
    var t := (v - s.d0) / (s.d1 - s.d0);
    assert t * (s.d1 - s.d0) == v - s.d0;
    assert s.Apply(v) - s.r0 == t * (s.r1 - s.r0);
    calc {
      (s.Apply(v) - s.r0) * (s.d1 - s.d0);
      t * (s.r1 - s.r0) * (s.d1 - s.d0);
      (t * (s.d1 - s.d0)) * (s.r1 - s.r0);
    }
  }

  /**
   Monotonicity: on a proper domain a larger value lands further towards
   `r1`; for the price scale (`r0 > r1`) a larger price is a smaller pixel y.
   */
  lemma ApplyMonotone(s: Linear, a: real, b: real)
    requires s.d0 < s.d1 && a < b
    ensures s.r0 < s.r1 ==> s.Apply(a) < s.Apply(b)
    ensures s.r0 > s.r1 ==> s.Apply(a) > s.Apply(b)
    ensures s.r0 == s.r1 ==> s.Apply(a) == s.Apply(b)
  {
    var w := s.d1 - s.d0;
    var pa := s.Apply(a);
    var pb := s.Apply(b);
    ApplyAffine(s, a);
    ApplyAffine(s, b);
    var k := s.r1 - s.r0;
    var q := (b - a) * k;
    assert (pb - pa) * w == q by {
      Distribute(pb - s.r0, pa - s.r0, w);
      Distribute(b - s.d0, a - s.d0, k);
    }
    ProductSign(b - a, s.r1 - s.r0);
    QuotientSign(pb - pa, w, q);
  }

  /** A common factor distributes over a difference. */
  lemma Distribute(x: real, y: real, w: real)
    ensures x * w - y * w == (x - y) * w
  {
  }

  /** The sign of a product with a positive factor is the sign of the other factor. */
  lemma ProductSign(a: real, b: real)
    requires a > 0.0
    ensures b > 0.0 ==> a * b > 0.0
    ensures b < 0.0 ==> a * b < 0.0
    ensures b == 0.0 ==> a * b == 0.0
  {
    if b < 0.0 {
      ProductPositive(a, -b);
    } else if b > 0.0 {
      ProductPositive(a, b);
    }
  }

  lemma QuotientSign(g: real, w: real, q: real)
    requires w > 0.0 && g * w == q
    ensures q > 0.0 ==> g > 0.0
    ensures q < 0.0 ==> g < 0.0
    ensures q == 0.0 ==> g == 0.0
  {
    ProductSign(w, g);
  }

  lemma ProductPositive(a: real, b: real)
    requires a > 0.0 && b > 0.0
    ensures a * b > 0.0
  {
  }

  lemma FractionWithin(a: real, b: real)
    requires 0.0 <= a <= b && 0.0 < b
    ensures 0.0 <= a / b <= 1.0
  {
  }

  lemma ProductWithin(t: real, w: real)
    requires 0.0 <= t <= 1.0 && 0.0 <= w
    ensures 0.0 <= t * w <= w
  {
    assert (1.0 - t) * w >= 0.0;
  }

  /** Inverting then applying gives back the pixel (the hover round trip). */
  lemma ApplyInvert(s: Linear, p: real)
    requires s.d0 != s.d1 && s.r0 != s.r1
    ensures s.Apply(s.Invert(p)) == p
  {
    var t := (p - s.r0) / (s.r1 - s.r0);
    var v := s.Invert(p);
    assert v - s.d0 == t * (s.d1 - s.d0);
    assert (v - s.d0) / (s.d1 - s.d0) == t;
    assert t * (s.r1 - s.r0) == p - s.r0;
  }

  /** Applying then inverting gives back the domain value. */
  lemma InvertApply(s: Linear, v: real)
    requires s.d0 != s.d1 && s.r0 != s.r1
    ensures s.Invert(s.Apply(v)) == v
  {
    var t := (v - s.d0) / (s.d1 - s.d0);
    var p := s.Apply(v);
    assert p - s.r0 == t * (s.r1 - s.r0);
    assert (p - s.r0) / (s.r1 - s.r0) == t;
    assert t * (s.d1 - s.d0) == v - s.d0;
  }

  /** A pixel inside the range inverts to a value inside the domain. */
  lemma InvertWithin(s: Linear, p: real)
    requires s.d0 <= s.d1 && s.r0 < s.r1 && s.r0 <= p <= s.r1
    ensures s.d0 <= s.Invert(p) <= s.d1
  {
    var t := (p - s.r0) / (s.r1 - s.r0);
    var w := s.d1 - s.d0;
    var v := s.Invert(p);
    assert v == s.d0 + t * w;
    FractionWithin(p - s.r0, s.r1 - s.r0);
    ProductWithin(t, w);
  }

  /** The least element of a non-empty sequence (d3.min). */
  function MinOf(xs: seq<real>): (m: real)
    requires |xs| > 0
    ensures m in xs
    ensures forall i :: 0 <= i < |xs| ==> m <= xs[i]
  {
    if |xs| == 1 then xs[0]
    else
      var rest := MinOf(xs[1..]);
      assert forall i :: 1 <= i < |xs| ==> xs[i] == xs[1..][i - 1];
      if xs[0] <= rest then xs[0] else rest
  }

  /** The greatest element of a non-empty sequence (d3.max). */
  function MaxOf(xs: seq<real>): (m: real)
    requires |xs| > 0
    ensures m in xs
    ensures forall i :: 0 <= i < |xs| ==> xs[i] <= m
  {
    if |xs| == 1 then xs[0]
    else
      var rest := MaxOf(xs[1..]);
      assert forall i :: 1 <= i < |xs| ==> xs[i] == xs[1..][i - 1];
      if xs[0] >= rest then xs[0] else rest
  }

  function Dates(data: seq<Sample>): (r: seq<real>)
    ensures |r| == |data|
    ensures forall i :: 0 <= i < |data| ==> r[i] == data[i].date as real
  {
    seq(|data|, i requires 0 <= i < |data| => data[i].date as real)
  }

  function Lowers(data: seq<Sample>): (r: seq<real>)
    ensures |r| == |data|
    ensures forall i :: 0 <= i < |data| ==> r[i] == data[i].lower
  {
    seq(|data|, i requires 0 <= i < |data| => data[i].lower)
  }

  function Uppers(data: seq<Sample>): (r: seq<real>)
    ensures |r| == |data|
    ensures forall i :: 0 <= i < |data| ==> r[i] == data[i].upper
  {
    seq(|data|, i requires 0 <= i < |data| => data[i].upper)
  }

  /**
   The x scale: d3.extent of the dates onto `[0, Width]`. The domain is the
   earliest and latest date; for ascending data those are the first and the
   last sample, which map to the left and right edges of the plot.
   */
  function XScale(data: seq<Sample>): (x: Linear)
    requires |data| > 0
    ensures x.r0 == 0.0 && x.r1 == Width
    ensures x.d0 <= x.d1
    ensures forall i :: 0 <= i < |data| ==> x.d0 <= data[i].date as real <= x.d1
    ensures Ascending(data) ==> x.d0 == data[0].date as real && x.d1 == data[|data| - 1].date as real
  {
    var ds := Dates(data);
    var lo := MinOf(ds);
    var hi := MaxOf(ds);
    assert ds[0] == data[0].date as real;
    assert Ascending(data) ==> forall i :: 0 <= i < |data| ==> ds[0] <= ds[i] && ds[i] <= ds[|data| - 1];
    Linear(lo, hi, 0.0, Width)
  }

  /**
   The price scale: `[min(lower) * 0.98, max(upper) * 1.02]` onto the
   inverted range `[Height, 0]`.
   */
  function YScale(data: seq<Sample>): (y: Linear)
    requires |data| > 0
    ensures y.r0 == Height && y.r1 == 0.0
    ensures forall i :: 0 <= i < |data| ==> y.d0 <= data[i].lower * LowPad
    ensures forall i :: 0 <= i < |data| ==> data[i].upper * HighPad <= y.d1
  {
    var lo := MinOf(Lowers(data));
    var hi := MaxOf(Uppers(data));
    Linear(lo * LowPad, hi * HighPad, Height, 0.0)
  }

  /**
   The domains are attained: some sample has the earliest date and some the
   latest, and some sample's `lower` (resp. `upper`) gives the padded bound.
   */
  lemma DomainsAttained(data: seq<Sample>)
    requires |data| > 0
    ensures exists i :: 0 <= i < |data| && data[i].date as real == XScale(data).d0
    ensures exists i :: 0 <= i < |data| && data[i].date as real == XScale(data).d1
    ensures exists i :: 0 <= i < |data| && YScale(data).d0 == data[i].lower * LowPad
    ensures exists i :: 0 <= i < |data| && YScale(data).d1 == data[i].upper * HighPad
  {
    var ds := Dates(data);
    var lo := MinOf(ds);
    var hi := MaxOf(ds);
    var i0 :| 0 <= i0 < |ds| && ds[i0] == lo;
    var i1 :| 0 <= i1 < |ds| && ds[i1] == hi;
    assert data[i0].date as real == XScale(data).d0;
    assert data[i1].date as real == XScale(data).d1;
    var ml := MinOf(Lowers(data));
    var mu := MaxOf(Uppers(data));
    var j0 :| 0 <= j0 < |data| && Lowers(data)[j0] == ml;
    var j1 :| 0 <= j1 < |data| && Uppers(data)[j1] == mu;
    assert YScale(data).d0 == data[j0].lower * LowPad;
    assert YScale(data).d1 == data[j1].upper * HighPad;
  }

  /**
   For two or more ascending samples the x domain is proper and the first
   and last dates map to the left and right edges of the plot.
   */
  lemma XEdges(data: seq<Sample>)
    requires |data| >= 2 && Ascending(data)
    ensures XScale(data).d0 < XScale(data).d1
    ensures XScale(data).Apply(data[0].date as real) == 0.0
    ensures XScale(data).Apply(data[|data| - 1].date as real) == Width
  {
    assert data[0].date < data[|data| - 1].date;
  }

  /** A band whose bounds are positive and ordered. */
  ghost predicate PositiveBands(data: seq<Sample>) {
    forall i :: 0 <= i < |data| ==> 0.0 < data[i].lower <= data[i].upper
  }

  /**
   Every band bound is positive and the least `lower` is at most the greatest
   `upper`; single bands may be inverted, which the client never checks.
   */
  ghost predicate PositiveBounds(data: seq<Sample>)
    requires |data| > 0
  {
    && (forall i :: 0 <= i < |data| ==> 0.0 < data[i].lower && 0.0 < data[i].upper)
    && MinOf(Lowers(data)) <= MaxOf(Uppers(data))
  }

  /** Positive, ordered bands have positive bounds in the weaker sense. */
  lemma PositiveBandsBounds(data: seq<Sample>)
    requires |data| > 0 && PositiveBands(data)
    ensures PositiveBounds(data)
  {
    assert MinOf(Lowers(data)) <= Lowers(data)[0] == data[0].lower;
    assert data[0].upper == Uppers(data)[0] <= MaxOf(Uppers(data));
  }

  /**
   With positive band bounds whose least `lower` is at most their greatest
   `upper`, the padded price domain is proper and every band bound lies
   strictly inside it, so the whole band is drawn strictly between the top
   and the bottom of the plot.
   */
  lemma YDomainProper(data: seq<Sample>)
    requires |data| > 0 && PositiveBounds(data)
    ensures YScale(data).d0 < YScale(data).d1
    ensures YScale(data).Apply(YScale(data).d0) == Height && YScale(data).Apply(YScale(data).d1) == 0.0
    ensures forall i :: 0 <= i < |data| ==>
      YScale(data).d0 < data[i].lower && data[i].upper < YScale(data).d1
  {
    var y := YScale(data);
    var lo := MinOf(Lowers(data));
    var hi := MaxOf(Uppers(data));
    assert Lowers(data)[0] == data[0].lower;
    assert Uppers(data)[0] == data[0].upper;
    assert 0.0 < lo <= hi;
    forall i | 0 <= i < |data|
      ensures y.d0 < data[i].lower && data[i].upper < y.d1
    {
      assert lo <= Lowers(data)[i];
      assert Uppers(data)[i] <= hi;
    }
  }

  /** Under the same hypothesis every band bound maps strictly inside `(0, Height)`. */
  lemma BandInsidePlot(data: seq<Sample>, i: int)
    requires |data| > 0 && PositiveBands(data) && 0 <= i < |data|
    ensures 0.0 < YScale(data).Apply(data[i].upper) < Height
    ensures 0.0 < YScale(data).Apply(data[i].lower) < Height
  {
    var y := YScale(data);
    PositiveBandsBounds(data);
    YDomainProper(data);
    ApplyMonotone(y, y.d0, data[i].lower);
    ApplyMonotone(y, data[i].upper, y.d1);
    if data[i].lower < data[i].upper {
      ApplyMonotone(y, data[i].lower, data[i].upper);
    }
  }
}
