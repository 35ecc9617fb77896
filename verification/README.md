# Market-vision chart core, modelled in Dafny

market-vision shows a stock's recent closing price with a 20-day moving
average ("trend") and Bollinger bands. The page is a D3 chart and the
back end is Flask with pandas. This project models the two pieces of logic
in it:

- **Back end (`app.py`).** A downloaded frame of dated closes becomes a list
  of records `{date, close, sma, upper, lower}` (module `Indicators`). The
  route then answers with success or error (module `Api`).
- **Front end (`static/script.js`).**
  - Two scales: a time scale over the date extent, and a padded price scale
    with an inverted pixel range (module `Scales`).
  - The band, trend and price paths (module `Geometry`).
  - The hover lookup: a left bisection over the dates, starting at index 1,
    which moves the crosshair and tooltip (module `Hover`).
  - The summary cards, computed from the last sample (module `Summary`).
  - The response dispatch of `fetchData`, and what the chart container and
    the summary cards show after a sequence of requests (module `Controller`).

Module `Pipeline` joins the two ends. It states what the page shows for the
reply the route builds from a given frame.

Representation choices:

- Dates are integer JavaScript time values, in milliseconds.
- Prices are exact `real`s.
- A `NaN` close in the frame is `None`.
- The rolling standard deviation is a function parameter `sd` applied to the
  window's 20 closes, so no square root is modelled.
- `x.invert` produces a `Date`, which truncates toward zero to whole
  milliseconds. This truncation is modelled (`Hover.TimeValue`).
- A d3 linear scale with a degenerate domain maps every value to the middle
  of its range. This happens when the series has a single date.

The hover lookup is a left bisection. It does not return the nearest sample,
although the comment at static/script.js:114 says "Find closest date to
mouse". The code alone does not settle which of the two was meant, so both
versions are modelled:

- `Hover.HoverIndex` is the code as written.
- `Hover.LeftBisectIsNotNearest` gives concrete inputs where the two versions
  differ.
- `Hover.NearestIndex` picks the nearer of the two bracketing samples.
  `Hover.NearestIsNearest` proves that it is a true nearest neighbour.

The page model (`Hover.MouseMove`) keeps the behaviour as written.

## Model

| member | source | states |
|---|---|---|
| Scales.Linear.Apply | static/script.js:46-51 | A d3 linear scale sends the domain's ends to the range's ends. A degenerate domain (a single date) sends every value to the middle of the range. |
| Scales.Linear.Invert | static/script.js:116 | Inversion sends the range's ends back to the domain's ends. A degenerate range sends every pixel to the middle of the domain. |
| Scales.ApplyMonotone | static/script.js:51 | On a proper domain the scale is strictly monotone. The price scale's range is `[height, 0]`, so a larger price gets a strictly smaller pixel y. |
| Scales.ApplyInvert | static/script.js:116 | Inverting a pixel and mapping it back returns the same pixel, whenever the domain and range are both proper. |
| Scales.InvertApply | static/script.js:116 | Mapping a domain value to a pixel and inverting it returns the same value, whenever the domain and range are both proper. |
| Scales.InvertWithin | static/script.js:104-116 | A pointer inside the overlay (`[0, width]`) inverts to a date inside the x domain. |
| Scales.MinOf | static/script.js:49 | `d3.min` returns an element of the sequence that is at most every element. |
| Scales.MaxOf | static/script.js:50 | `d3.max` returns an element of the sequence that is at least every element. |
| Scales.XScale | static/script.js:46 | The x domain encloses every sample date and is mapped onto `[0, width]`. For ascending data it is exactly `[first date, last date]`. |
| Scales.YScale | static/script.js:49-51 | The y domain is at most every `lower*0.98` and at least every `upper*1.02`, and it is mapped onto the inverted range `[height, 0]`. |
| Scales.DomainsAttained | static/script.js:46-51 | The domain bounds are attained by samples: the x domain is the earliest and latest date, and the y domain is exactly `[min(lower)*0.98, max(upper)*1.02]`. |
| Scales.XEdges | static/script.js:46 | For two or more ascending samples, the x domain is proper, the first date maps to the left edge and the last date to the right edge. |
| Scales.YDomainProper | static/script.js:49-51 | If every band bound is positive and the least `lower` is at most the greatest `upper` (single bands may be inverted), the y domain is proper (lower bound < upper bound), its lower bound maps to `height` and its upper bound to 0, and every band bound lies strictly inside it. |
| Scales.BandInsidePlot | static/script.js:49-51 | For positive, ordered bands, the 2% padding draws every band bound strictly between the top and the bottom of the plot. |
| Geometry.Render | static/script.js:65-91 | The chart is drawn on the scales `XScale(data)` and `YScale(data)` built from the data itself. It has three layers, drawn back to front: the band (red fill), the dashed trend and the solid price. Each has exactly one point per sample. All three share `x(date)`. The band uses `lower`/`upper`, the trend `sma` and the price `close`. |
| Geometry.SeriesSpanPlot | static/script.js:46-91 | For two or more ascending samples, every series starts at x = 0, ends at x = width, and moves strictly right from sample to sample. |
| Geometry.PriceInsideBand | static/script.js:65-91 | For positive, ordered bands, a close that lies inside its band is drawn between the band's topline and baseline, inside the plot. The same holds for a trend inside its band. |
| Geometry.Between | static/script.js:51 | On the inverted price scale, a value between two others is drawn between their pixels. |
| Hover.TimeValue | static/script.js:116 | The inverted date is the pixel's domain value truncated toward zero, so it is less than 1 ms away from that value. |
| Hover.Search | static/script.js:115-117 | The d3 bisection loop returns an index in `[lo, hi]`. On ascending data, every date before that index is earlier than `x0`, and every date from it on is not. |
| Hover.BisectLeft | static/script.js:115-117 | `bisector.left(data, x0, lo)` returns `lo` unchanged when `lo` is at or past the end. Otherwise it returns the left insertion point within `[lo, n]`. |
| Hover.FirstNotBefore | static/script.js:115-117 | Reference linear scan: the first index from `k` whose date is at or after `x0`. |
| Hover.SplitUnique | static/script.js:115-117 | At most one index can be such an insertion point, so the lookup result is determined by the pointer. |
| Hover.BisectIsScan | static/script.js:115-117 | On ascending data the bisection returns exactly the index the linear scan finds. |
| Hover.HoverIndex | static/script.js:115-120 | Index 0 is never picked, and a series of one or no samples picks nothing. A picked sample's date is at or after `x0`, and every date between index 1 and it is before `x0`. Nothing is picked only when every date from index 1 on is before `x0`. |
| Hover.Lookup | static/script.js:116-117 | The pointer pixel is inverted and truncated to a time value `t`. The lookup never picks index 0 and picks nothing for one sample or none. On ascending data it picks the first sample from index 1 dated at or after `t`, and nothing only when every date from index 1 on is before `t`. |
| Hover.PointerInPlotFindsSample | static/script.js:104-120 | With two or more ascending samples, a pointer anywhere in `[0, width]` finds a sample, and it is never the first one. |
| Hover.MouseOver | static/script.js:109 | Shows the crosshair and tooltip and leaves their content unchanged. |
| Hover.MouseOut | static/script.js:110 | Hides them and leaves their content unchanged. |
| Hover.MouseMove | static/script.js:113-132 | Never changes visibility. When no sample is found nothing changes. Otherwise the tooltip shows exactly the sample `Lookup` finds (never index 0), and the crosshair moves to that sample's x. |
| Hover.MouseMoveIdempotent | static/script.js:113-132 | Repeating a pointer position changes nothing further. |
| Hover.SingleSampleNeverHovers | static/script.js:117-120 | With a single sample, `mousemove` never changes the crosshair or the tooltip. |
| Hover.LeftBisectIsNotNearest | static/script.js:114-120 | On dates 0, 10 and 20, a pointer at 11 picks the sample at 20 although 10 is nearer. A pointer exactly on the first date picks the second sample. |
| Hover.NearestIndex | static/script.js:114-120 | The nearest-sample variant picks a sample exactly when the series is non-empty, and the index is in range. |
| Hover.NearestIsNearest | static/script.js:114-120 | On ascending data, no sample is strictly nearer to the pointer's date than the one the nearest-sample variant picks. |
| Summary.Classify | static/script.js:140-149 | For a positive close the label is HIGH exactly when the band's width relative to the close exceeds 15%. For a zero close it is HIGH exactly when the band has positive width. |
| Summary.WiderBandNotCalmer | static/script.js:140-149 | With the same close, widening the band can only move the label from STABLE to HIGH, never back. |
| Summary.ClassifyScaleFree | static/script.js:140-149 | The label is relative: scaling all prices by the same positive factor keeps it. |
| Summary.UpdateCards | static/script.js:135-150 | Cards exist exactly when there is a last sample, and they read only that sample. The label is HIGH (red) iff `upper - lower > close * 0.15`, and STABLE (green) otherwise. |
| Summary.CardsReadOnlyLast | static/script.js:136 | Two series that end in the same sample give the same cards. |
| Summary.CardExamples | static/script.js:135-149 | Spread 8 against threshold 15 is STABLE. Spread 20 is HIGH. The two-day series ending at close 102 shows 102, 100 and STABLE. |
| Indicators.WindowCloses | app.py:31 | The 20-close window of a row holds that row's close and the 19 before it, oldest first. |
| Indicators.RowAt | app.py:31-52 | A record keeps its row's date and close. Its `sma` times 20 is the sum of the window. `upper - sma == sma - lower == 2*std` of the window. |
| Indicators.Kept | app.py:41 | `dropna` keeps exactly the rows with 20 consecutive closes, in increasing row order. |
| Indicators.Rows | app.py:44-52 | One output record per kept row, in kept-row order. |
| Indicators.GetStockData | app.py:19-55 | An empty frame gives no data (`None`). Any other frame gives the derived list, which may be empty. |
| Indicators.KeptWithoutGaps | app.py:31-41 | With no missing close, the rows kept from any start are the consecutive rows from `max(start, 19)` to the end. |
| Indicators.DropsFirstNineteen | app.py:31-41 | With no missing close, exactly the first 19 rows are dropped. The output has `max(0, n - 19)` records, and record `k` comes from row `k + 19`. |
| Indicators.RowsAscending | app.py:41-52 | Ascending input dates give ascending output dates, so row order is kept. |
| Indicators.SumBounds | app.py:31 | A sum of `n` terms lies between `n` times a lower bound and `n` times an upper bound of the terms. |
| Indicators.RowInvariants | app.py:31-38 | The trend lies between the least and the greatest close of its window. A non-negative deviation gives `lower <= sma <= upper`. |
| Indicators.RowsNonEmptyIff | app.py:31-52 | The output list is non-empty exactly when some row has 20 consecutive closes. |
| Indicators.ShortFrameEmpty | app.py:31-41 | A frame of 1 to 19 rows gives an empty list. |
| Indicators.BandsEncloseTrend | app.py:34-38 | With a non-negative deviation, every output band encloses its trend. |
| Api.UpperAscii | app.py:71 | Upper-casing keeps the length, leaves no lower-case ASCII letter, moves each lower-case letter to its capital, and keeps every other character. |
| Api.UpperIdempotent | app.py:71 | Upper-casing twice is the same as upper-casing once. |
| Api.Predict | app.py:68-73 | The status is `success` iff the data list is present and non-empty. Success returns code 200 with the data unchanged and the upper-cased ticker. Otherwise the response is the fixed error message with code 500. |
| Api.Serve | app.py:67-73 | The route succeeds exactly for a non-empty frame whose derived list is non-empty, with code 200 and that list. Otherwise it answers code 500 with the body `{status: "error", message: "Server Error or Invalid Ticker"}` and no data or ticker. |
| Api.ServeSucceedsIff | app.py:68-73 | The route succeeds exactly when some downloaded row has 20 consecutive closes. A frame shorter than 20 rows always gets code 500. |
| Controller.FetchData | static/script.js:12-27 | The chart is drawn iff the reply's status is not `error` and its data is present and non-empty. The drawn chart and cards come from that data. An `error` status shows the reply's message verbatim. Every other failure shows the generic text. |
| Controller.Step | static/script.js:7-28 | A submit puts the loading text in the chart container, and an arrival puts its handled response there. The summary cards change only when that response is drawn. A submit, an error reply and a failed request all leave them as they were. |
| Controller.Run | static/script.js:7-28 | Over any sequence of events, the cards on screen are either the initial ones or those of some drawn arrival. |
| Controller.LastEventWins | static/script.js:7-28 | Requests are neither tagged nor cancelled, so the chart container shows the outcome of the last response to arrive, whether stale or not, or the loading text after a submit. |
| Controller.LastDrawnCards | static/script.js:16-26 | The summary cards sit outside the chart container and only `updateCards` writes them. They show the last drawn arrival, through any later submit, error reply or failed request. With no drawn arrival they keep their initial content. |
| Controller.DispatchExamples | static/script.js:16-22 | The reply `{status: "error", message: "Unknown ticker"}` shows exactly "Unknown ticker". The two-day success draws with cards 102, 100 and STABLE. |
| Controller.StaleCardsStay | static/script.js:10-22 | After the two-day series is drawn, a new submit and an error reply `"x"` leave the container showing "x" and the cards still showing 102, 100 and STABLE. |
| Pipeline.SuccessIsDrawn | app.py:44-73 | A gap-free, ascending frame of 20 or more rows is drawn from its `n - 19` records. Those records are in ascending date order, and the price card shows the frame's last close. |
| Pipeline.FailureShowsServerText | app.py:69-73 | A frame in which no row has 20 consecutive closes makes the page show "Server Error or Invalid Ticker" and draw nothing. |

## Left out

- Drawing side effects are not modelled: SVG and DOM construction, axes, tick formats, styles, the overlay rectangle's event wiring, and tooltip placement at `pageX`/`pageY`. They are presentational.
- The tooltip's HTML text is not modelled. `Hover.Focus` records which sample it shows.
- The `fetch` call and the `await`s are network I/O. `Controller.Fetched` is their outcome. Interleavings are modelled only as the order in which outcomes arrive (`Controller.LastEventWins`).
- The cards' initial content comes from the page template, which is not part of this model. `None` in `Controller.Page.cards` stands for it.
- The error message is inserted into the page as HTML. The model treats it as plain text.
- `yf.download`, the 180-day window from `datetime.now()`, Flask routing, `render_template` and the `print` logging are I/O or framework plumbing. The downloaded frame is the parameter `bars`.
- A frame's columns other than `Date` and `Close` (open, high, low, volume) are not modelled. A `NaN` in one of them would also make `dropna` drop its row.
- Exceptions raised inside `get_stock_data` are not modelled. In the source they also produce `None`. The model's only `None` is the empty frame.
- The rolling standard deviation's square root is not modelled: it is the parameter `sd`. Floating-point rounding is not modelled either: `round(..., 2)` and `toFixed(2)` are left out, and prices are exact reals.
- Date parsing and formatting are not modelled: `strftime`, `d3.timeParse` (which the source applies only to string dates) and `d3.timeFormat`. Dates are integer time values.
- `Api.UpperAscii`: models Python's `str.upper` on ASCII letters only. Non-ASCII case mappings (some of which change the length) are left out.
- `Geometry.Render`: requires a non-empty series. On an empty one the source builds scales from `undefined` extents. It then throws in `updateCards`, and the page shows the generic error text, which `Controller.FetchData` models.
- `Scales.XScale`: requires a non-empty series, because `d3.extent` of an empty series is undefined. The only caller that could pass one is the case described for `Geometry.Render`.
- `Scales.YScale`: requires a non-empty series for the same reason (`d3.min`/`d3.max` of an empty series).
- `Hover.TimeValue`: time values beyond ±8.64e15 ms give an invalid `Date`. The model does not produce them. A pointer inside the plot never reaches them for real dates.
- The `#tooltip` element lives outside the chart container, so its visibility carries over from one render to the next. This is not modelled.
