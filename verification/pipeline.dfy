/**
 The back end and the front end together: what the page shows for the reply
 the route builds from a downloaded frame.
 */
module Pipeline {
  import opened Common
  import opened Indicators
  import opened Api
  import opened Geometry
  import opened Summary
  import opened Controller

  /**
   A gap-free frame of at least 20 ascending rows is drawn: the chart is the
   rendering of the `n - 19` derived records, in ascending date order (so the
   hover lookup's ordering assumption holds), and the price card shows the
   frame's last close.
   */
  lemma SuccessIsDrawn(ticker: string, bars: seq<Bar>, sd: seq<real> -> real)
    requires NoGaps(bars) && BarsAscending(bars) && |bars| >= Window
    ensures var rows := Rows(bars, sd);
      var v := FetchData(Received(Serve(ticker, bars, sd).body));
      && |rows| == |bars| - (Window - 1)
      && Ascending(rows)
      && v.Drawn?
      && v.chart == Render(rows)
      && v.cards.price == bars[|bars| - 1].close.value
  {
    var rows := Rows(bars, sd);
    DropsFirstNineteen(bars, sd);
    RowsAscending(bars, sd);
    var n := |rows|;
    assert rows[n - 1] == RowAt(bars, sd, |bars| - 1);
    var r := Serve(ticker, bars, sd);
    assert GetStockData(bars, sd) == Some(rows);
    assert r.body.status == "success" && r.body.data == Some(rows);
    var v := FetchData(Received(r.body));
    assert v.Drawn? && Some(v.cards) == UpdateCards(rows);
  }

  /**
   A frame with no row that has 20 consecutive closes (in particular an
   empty or short one) makes the page show the server's error text, with
   nothing drawn.
   */
  lemma FailureShowsServerText(ticker: string, bars: seq<Bar>, sd: seq<real> -> real)
    requires forall i :: 0 <= i < |bars| ==> !FullWindow(bars, i)
    ensures FetchData(Received(Serve(ticker, bars, sd).body)) == Message(ServerErrorText)
  {
    ServeSucceedsIff(ticker, bars, sd);
  }
}
