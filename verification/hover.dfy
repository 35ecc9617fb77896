/**
 The hover lookup of the chart (static/script.js:93-132): the pointer's pixel
 is inverted through the x scale into a date, a left bisection over the
 sample dates starting at index 1 picks a sample, and when one is found the
 crosshair and the tooltip move to it.
 */
module Hover {
  import opened Common
  import opened Scales

  /**
   The date a pixel inverts to: `x.invert` builds a JavaScript `Date`, whose
   time value is truncated toward zero to whole milliseconds.
   */
  function TimeValue(v: real): (t: int)
    ensures v >= 0.0 ==> t as real <= v < t as real + 1.0
    ensures v < 0.0 ==> t as real - 1.0 < v <= t as real
  {
    if v >= 0.0 then v.Floor else -((-v).Floor)
  }

  /**
   Every date in `[lo, i)` is before `x0` and every date in `[i, hi)` is at or
   after it: `i` is a left insertion point of `x0` within `[lo, hi)`.
   */
  ghost predicate SplitsAt(data: seq<Sample>, x0: int, lo: int, hi: int, i: int)
    requires 0 <= lo <= hi <= |data|
  {
    && lo <= i <= hi
    && (forall k :: lo <= k < i ==> data[k].date < x0)
    && (forall k :: i <= k < hi ==> data[k].date >= x0)
  }

  /**
   The halving loop of d3's `bisector(d => d.date).left` on `[lo, hi)`: the
   middle is `(lo + hi) >>> 1`; a middle date before `x0` moves `lo` past it,
   any other moves `hi` onto it.
   */
  function Search(data: seq<Sample>, x0: int, lo: int, hi: int): (i: int)
    requires 0 <= lo <= hi <= |data|
    ensures lo <= i <= hi
    ensures Ascending(data) ==> SplitsAt(data, x0, lo, hi, i)
    decreases hi - lo
  {
    if lo < hi then
      var mid := (lo + hi) / 2;
      if data[mid].date < x0 then Search(data, x0, mid + 1, hi)
      else Search(data, x0, lo, mid)
    else lo
  }

  /**
   d3's `bisector(...).left(data, x0, lo)` with `hi` defaulting to the length:
   a start at or past the end is returned unchanged, otherwise the search
   runs over `[lo, |data|)`.
   */
  function BisectLeft(data: seq<Sample>, x0: int, lo: nat): (i: int)
    ensures lo >= |data| ==> i == lo
    ensures lo < |data| ==> lo <= i <= |data|
    ensures lo < |data| && Ascending(data) ==> SplitsAt(data, x0, lo, |data|, i)
  {
    if lo < |data| then Search(data, x0, lo, |data|) else lo
  }

  /** Reference definition: scan forwards from `k` to the first date at or after `x0`. */
  function FirstNotBefore(data: seq<Sample>, x0: int, k: int): (i: int)
    requires 0 <= k <= |data|
    ensures k <= i <= |data|
    ensures forall j :: k <= j < i ==> data[j].date < x0
    ensures i < |data| ==> data[i].date >= x0
    decreases |data| - k
  {
    if k == |data| || data[k].date >= x0 then k else FirstNotBefore(data, x0, k + 1)
  }

  /** At most one index splits a range, whatever the data. */
  lemma SplitUnique(data: seq<Sample>, x0: int, lo: int, hi: int, i: int, j: int)
    requires 0 <= lo <= hi <= |data|
    requires SplitsAt(data, x0, lo, hi, i) && SplitsAt(data, x0, lo, hi, j)
    ensures i == j
  {
    if i < hi {
      assert data[i].date >= x0;
    }
    if j < hi {
      assert data[j].date >= x0;
    }
  }

  /** On ascending data the bisection finds exactly what the linear scan finds. */
  lemma BisectIsScan(data: seq<Sample>, x0: int, lo: nat)
    requires Ascending(data) && lo <= |data|
    ensures BisectLeft(data, x0, lo) == FirstNotBefore(data, x0, lo)
  {
    var f := FirstNotBefore(data, x0, lo);
    if lo < |data| {
      assert SplitsAt(data, x0, lo, |data|, f) by {
        forall k | f <= k < |data|
          ensures data[k].date >= x0
        {
          assert data[f].date <= data[k].date;
        }
      }
      SplitUnique(data, x0, lo, |data|, BisectLeft(data, x0, lo), f);
    }
  }

  /**
   The sample the hover picks for date `x0`: the left bisection from index 1;
   an index equal to the length reads `undefined` and nothing is picked.
   */
  function HoverIndex(data: seq<Sample>, x0: int): (r: Option<nat>)
    ensures r.Some? ==> 1 <= r.value < |data|
    ensures |data| <= 1 ==> r.None?
    ensures Ascending(data) && r.Some? ==>
      && data[r.value].date >= x0
      && forall k :: 1 <= k < r.value ==> data[k].date < x0
    ensures Ascending(data) && r.None? ==> forall k :: 1 <= k < |data| ==> data[k].date < x0
  {
    var i := BisectLeft(data, x0, 1);
    if i < |data| then Some(i) else None
  }

  /**
   The pointer pixel `px` is inverted through `x` into the time value `t`,
   then looked up: never the first sample, nothing for one sample or none,
   and on ascending data the first sample from index 1 dated at or after `t`.
   */
  function Lookup(data: seq<Sample>, x: Linear, px: real): (r: Option<nat>)
    ensures r.Some? ==> 1 <= r.value < |data|
    ensures |data| <= 1 ==> r.None?
    ensures Ascending(data) ==>
      var t := TimeValue(x.Invert(px));
      && (r.Some? ==> data[r.value].date >= t && forall k :: 1 <= k < r.value ==> data[k].date < t)
      && (r.None? ==> forall k :: 1 <= k < |data| ==> data[k].date < t)
  {
    HoverIndex(data, TimeValue(x.Invert(px)))
  }

  /**
   With two or more ascending samples, a pointer anywhere across the plot
   finds a sample, and that sample is never the first one.
   */
  lemma PointerInPlotFindsSample(data: seq<Sample>, px: real)
    requires |data| >= 2 && Ascending(data) && 0.0 <= px <= Width
    ensures Lookup(data, XScale(data), px).Some?
    ensures Lookup(data, XScale(data), px).value >= 1
  {
    var x := XScale(data);
    var n := |data|;
    InvertWithin(x, px);
    var v := x.Invert(px);
    assert v <= data[n - 1].date as real;
    var t := TimeValue(v);
    assert t <= data[n - 1].date;
    assert data[n - 1].date >= t;
  }

  /** The crosshair and tooltip: shown or hidden, and where they last moved to. */
  datatype Focus = Focus(visible: bool, lineX: Option<real>, tip: Option<Sample>)

  /** `mouseover` shows the crosshair and tooltip. */
  function MouseOver(f: Focus): (r: Focus)
    ensures r.visible && r.lineX == f.lineX && r.tip == f.tip
  {
    f.(visible := true)
  }

  /** `mouseout` hides them. */
  function MouseOut(f: Focus): (r: Focus)
    ensures !r.visible && r.lineX == f.lineX && r.tip == f.tip
  {
    f.(visible := false)
  }

  /**
   `mousemove`: when the lookup finds a sample, the crosshair moves to that
   sample's x position and the tooltip shows it; otherwise nothing changes.
   Visibility is never touched.
   */
  function MouseMove(data: seq<Sample>, x: Linear, f: Focus, px: real): (r: Focus)
    ensures r.visible == f.visible
    ensures Lookup(data, x, px).None? ==> r == f
    ensures Lookup(data, x, px).Some? ==>
      var i := Lookup(data, x, px).value;
      && 1 <= i < |data|
      && r.tip == Some(data[i])
      && r.lineX == Some(x.Apply(data[i].date as real))
  {
    match Lookup(data, x, px)
    case None => f
    case Some(i) => f.(lineX := Some(x.Apply(data[i].date as real)), tip := Some(data[i]))
  }

  /** Repeating a pointer position changes nothing further: the lookup is a function of the pixel. */
  lemma MouseMoveIdempotent(data: seq<Sample>, x: Linear, f: Focus, px: real)
    ensures MouseMove(data, x, MouseMove(data, x, f, px), px) == MouseMove(data, x, f, px)
  {
  }

  /**
   A single-sample series never moves the crosshair or changes the tooltip:
   bisection from index 1 ends at the length.
   */
  lemma SingleSampleNeverHovers(data: seq<Sample>, x: Linear, f: Focus, px: real)
    requires |data| == 1
    ensures MouseMove(data, x, f, px) == f
  {
  }

  /**
   As written, the lookup is not the nearest sample: on dates 0, 10, 20 a
   pointer at 11 picks the sample at 20 though 10 is nearer, and a pointer
   exactly on the first date picks the second sample.
   */
  lemma LeftBisectIsNotNearest()
    ensures var data := [Sample(0, 1.0, 1.0, 1.0, 1.0), Sample(10, 1.0, 1.0, 1.0, 1.0), Sample(20, 1.0, 1.0, 1.0, 1.0)];
      && HoverIndex(data, 11) == Some(2)
      && IntAbs(data[2].date - 11) > IntAbs(data[1].date - 11)
      && HoverIndex(data, 0) == Some(1)
      && IntAbs(data[1].date - 0) > IntAbs(data[0].date - 0)
  {
    var data := [Sample(0, 1.0, 1.0, 1.0, 1.0), Sample(10, 1.0, 1.0, 1.0, 1.0), Sample(20, 1.0, 1.0, 1.0, 1.0)];
    assert Search(data, 11, 1, 3) == 2;
    assert Search(data, 0, 1, 3) == 1;
  }

  /** The distance of a date difference, in milliseconds. */
  function IntAbs(k: int): nat {
    if k < 0 then -k else k
  }

  /**
   The nearest-sample lookup the comment at the hover handler asks for: the
   left bisection from index 1 brackets `x0` between samples `i - 1` and `i`,
   and the nearer of the two is taken (the later one only when strictly
   nearer); past the last date the last sample is taken.
   */
  function NearestIndex(data: seq<Sample>, x0: int): (r: Option<nat>)
    ensures r.None? <==> |data| == 0
    ensures r.Some? ==> r.value < |data|
  {
    if |data| == 0 then None
    else
      var i := BisectLeft(data, x0, 1);
      if i >= |data| then Some(|data| - 1)
      else if x0 - data[i - 1].date > data[i].date - x0 then Some(i)
      else Some(i - 1)
  }

  /** On ascending data no sample is nearer to `x0` than the one `NearestIndex` picks. */
  lemma NearestIsNearest(data: seq<Sample>, x0: int)
    requires |data| > 0 && Ascending(data)
    ensures forall k :: 0 <= k < |data| ==>
      IntAbs(data[NearestIndex(data, x0).value].date - x0) <= IntAbs(data[k].date - x0)
  {
    var n := |data|;
    var i := BisectLeft(data, x0, 1);
    var r := NearestIndex(data, x0).value;
    if n == 1 {
      assert r == 0;
    } else {
      assert SplitsAt(data, x0, 1, n, i);
      forall k | 0 <= k < n
        ensures IntAbs(data[r].date - x0) <= IntAbs(data[k].date - x0)
      {
        if i >= n {
          // every date from index 1 on is before x0, and so is the first if there are later ones
          assert data[k].date <= data[n - 1].date < x0;
        } else if k >= i {
          assert data[i].date <= data[k].date;
        } else {
          assert data[k].date <= data[i - 1].date;
          if i - 1 >= 1 {
            assert data[i - 1].date < x0;
          } else {
            assert k == 0;
          }
        }
      }
    }
  }
}
