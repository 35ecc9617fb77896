/**
 The series derivation of `get_stock_data` (app.py:19-55), starting from the
 downloaded frame of dated closes: a 20-row rolling mean, Bollinger bands at
 two rolling standard deviations either side, removal of every row holding a
 `NaN`, and one output record per remaining row, in order.

 A missing close (`NaN`) is `None`. pandas' rolling window needs all 20 of
 its values (`min_periods` defaults to the window), so a row's mean and
 deviation exist exactly when the row and its 19 predecessors all have a
 close. The rolling standard deviation is a parameter `sd` applied to the
 window's closes, so no square root is needed.
 */
module Indicators {
  import opened Common

  /** Length of the rolling window. */
  const Window: nat := 20

  /** One downloaded row: its date and its close, `None` for `NaN`. */
  datatype Bar = Bar(date: int, close: Option<real>)

  function Sum(xs: seq<real>): real {
    if |xs| == 0 then 0.0 else Sum(xs[..|xs| - 1]) + xs[|xs| - 1]
  }

  /** Row `i` and its 19 predecessors all carry a close. */
  predicate FullWindow(bars: seq<Bar>, i: int)
    requires 0 <= i < |bars|
  {
    i + 1 >= Window && forall k :: i + 1 - Window <= k <= i ==> bars[k].close.Some?
  }

  /** The 20 closes ending at row `i`, oldest first. */
  function WindowCloses(bars: seq<Bar>, i: int): (w: seq<real>)
    requires 0 <= i < |bars| && FullWindow(bars, i)
    ensures |w| == Window
    ensures forall j :: 0 <= j < Window ==> Some(w[j]) == bars[i + 1 - Window + j].close
    ensures w[Window - 1] == bars[i].close.value
  {
    seq(Window, j requires 0 <= j < Window => bars[i + 1 - Window + j].close.value)
  }

  /**
   The record emitted for a kept row: `SMA_20` is the window mean,
   `Upper_Band` and `Lower_Band` are it plus and minus twice `sd` of the
   window.
   */
  function RowAt(bars: seq<Bar>, sd: seq<real> -> real, i: int): (r: Sample)
    requires 0 <= i < |bars| && FullWindow(bars, i)
    ensures r.date == bars[i].date && Some(r.close) == bars[i].close
    ensures r.sma * (Window as real) == Sum(WindowCloses(bars, i))
    ensures r.upper - r.sma == r.sma - r.lower == 2.0 * sd(WindowCloses(bars, i))
  {
    var w := WindowCloses(bars, i);
    var sma := Sum(w) / Window as real;
    var std := sd(w);
    Sample(bars[i].date, bars[i].close.value, sma, sma + std * 2.0, sma - std * 2.0)
  }

  /**
   The rows from `from` on that `dropna` keeps, in increasing order: exactly
   those with a full window.
   */
  function Kept(bars: seq<Bar>, from: int): (ix: seq<int>)
    requires 0 <= from <= |bars|
    ensures forall k :: 0 <= k < |ix| ==> from <= ix[k] < |bars| && FullWindow(bars, ix[k])
    ensures forall k, l :: 0 <= k < l < |ix| ==> ix[k] < ix[l]
    ensures forall i :: from <= i < |bars| && FullWindow(bars, i) ==> i in ix
    decreases |bars| - from
  {
    if from == |bars| then []
    else if FullWindow(bars, from) then [from] + Kept(bars, from + 1)
    else Kept(bars, from + 1)
  }

  /** The output list: one record per kept row, in row order. */
  function Rows(bars: seq<Bar>, sd: seq<real> -> real): (rows: seq<Sample>)
    ensures |rows| == |Kept(bars, 0)|
    ensures forall k :: 0 <= k < |rows| ==> rows[k] == RowAt(bars, sd, Kept(bars, 0)[k])
  {
    var ix := Kept(bars, 0);
    seq(|ix|, k requires 0 <= k < |ix| => RowAt(bars, sd, ix[k]))
  }

  /** `get_stock_data`: no data for an empty frame, else the output list (possibly empty). */
  function GetStockData(bars: seq<Bar>, sd: seq<real> -> real): (r: Option<seq<Sample>>)
    ensures r.None? <==> |bars| == 0
    ensures r.Some? ==> r.value == Rows(bars, sd)
  {
    if |bars| == 0 then None else Some(Rows(bars, sd))
  }

  /** No close is missing. */
  ghost predicate NoGaps(bars: seq<Bar>) {
    forall i :: 0 <= i < |bars| ==> bars[i].close.Some?
  }

  /** Strictly increasing dates, as the downloaded index is. */
  ghost predicate BarsAscending(bars: seq<Bar>) {
    forall i, j :: 0 <= i < j < |bars| ==> bars[i].date < bars[j].date
  }

  /**
   With no missing close, the rows kept from `from` on are `max(from, 19)`,
   `max(from, 19) + 1`, ... up to the last row.
   */
  lemma {:induction false} KeptWithoutGaps(bars: seq<Bar>, from: int)
    requires NoGaps(bars) && 0 <= from <= |bars|
    ensures var start := if from < Window - 1 then Window - 1 else from;
      && |Kept(bars, from)| == (if start <= |bars| then |bars| - start else 0)
      && forall k :: 0 <= k < |Kept(bars, from)| ==> Kept(bars, from)[k] == start + k
    decreases |bars| - from
  {
    if from < |bars| {
      KeptWithoutGaps(bars, from + 1);
      if from + 1 >= Window {
        assert FullWindow(bars, from);
      }
    }
  }

  /**
   With no missing close, `dropna` removes exactly the first 19 rows: the
   output has `max(0, n - 19)` records and record `k` comes from row `k + 19`.
   */
  lemma DropsFirstNineteen(bars: seq<Bar>, sd: seq<real> -> real)
    requires NoGaps(bars)
    ensures |Rows(bars, sd)| == if |bars| >= Window - 1 then |bars| - (Window - 1) else 0
    ensures forall k :: 0 <= k < |Rows(bars, sd)| ==>
      k + Window - 1 < |bars| && Rows(bars, sd)[k] == RowAt(bars, sd, k + Window - 1)
  {
    KeptWithoutGaps(bars, 0);
  }

  /** Output records keep the input order: ascending input dates give ascending output dates. */
  lemma RowsAscending(bars: seq<Bar>, sd: seq<real> -> real)
    requires BarsAscending(bars)
    ensures Ascending(Rows(bars, sd))
  {
    var ix := Kept(bars, 0);
    var rows := Rows(bars, sd);
    forall k, l | 0 <= k < l < |rows|
      ensures rows[k].date < rows[l].date
    {
      assert ix[k] < ix[l];
    }
  }

  /** A sum lies between its length times the least term and its length times the greatest. */
  lemma {:induction false} SumBounds(xs: seq<real>, lo: real, hi: real)
    requires forall j :: 0 <= j < |xs| ==> lo <= xs[j] <= hi
    ensures (|xs| as real) * lo <= Sum(xs) <= (|xs| as real) * hi
  {
    if |xs| > 0 {
      SumBounds(xs[..|xs| - 1], lo, hi);
    }
  }

  /**
   Each kept record's trend is a mean of its window: it lies between the
   window's least and greatest close; and with a non-negative deviation the
   band encloses the trend, symmetrically.
   */
  lemma RowInvariants(bars: seq<Bar>, sd: seq<real> -> real, i: int, lo: real, hi: real)
    requires 0 <= i < |bars| && FullWindow(bars, i)
    requires forall j :: 0 <= j < Window ==> lo <= WindowCloses(bars, i)[j] <= hi
    ensures lo <= RowAt(bars, sd, i).sma <= hi
    ensures sd(WindowCloses(bars, i)) >= 0.0 ==> RowAt(bars, sd, i).lower <= RowAt(bars, sd, i).sma <= RowAt(bars, sd, i).upper
  {
    var w := WindowCloses(bars, i);
    SumBounds(w, lo, hi);
  }

  /** The output list is non-empty exactly when some row has a full window. */
  lemma RowsNonEmptyIff(bars: seq<Bar>, sd: seq<real> -> real)
    ensures |Rows(bars, sd)| > 0 <==> exists i :: 0 <= i < |bars| && FullWindow(bars, i)
  {
    var ix := Kept(bars, 0);
    if |ix| > 0 {
      assert FullWindow(bars, ix[0]);
    }
  }

  /** A frame with at least one row but fewer than 20 yields an empty list, whatever its closes. */
  lemma ShortFrameEmpty(bars: seq<Bar>, sd: seq<real> -> real)
    requires 0 < |bars| < Window
    ensures GetStockData(bars, sd) == Some([])
  {
    RowsNonEmptyIff(bars, sd);
  }

  /** With a non-negative deviation every output record's band encloses its trend. */
  lemma BandsEncloseTrend(bars: seq<Bar>, sd: seq<real> -> real)
    requires forall w :: sd(w) >= 0.0
    ensures forall k :: 0 <= k < |Rows(bars, sd)| ==>
      Rows(bars, sd)[k].lower <= Rows(bars, sd)[k].sma <= Rows(bars, sd)[k].upper
  {
    var rows := Rows(bars, sd);
    forall k | 0 <= k < |rows|
      ensures rows[k].lower <= rows[k].sma <= rows[k].upper
    {
      var i := Kept(bars, 0)[k];
      assert rows[k] == RowAt(bars, sd, i);
      assert sd(WindowCloses(bars, i)) >= 0.0;
    }
  }
}
