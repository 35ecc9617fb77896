/**
 The `/api/predict/<ticker>` route (app.py:67-73): success with the data and
 the upper-cased ticker when the data list is truthy, otherwise a fixed
 error message with HTTP status 500.
 */
module Api {
  import opened Common
  import opened Indicators

  const ServerErrorText: string := "Server Error or Invalid Ticker"

  /** An HTTP status code and the JSON body. */
  datatype Response = Response(code: int, body: Reply)

  /** `str.upper` on ASCII: lower-case letters move up by 32 code points. */
  function UpperChar(c: char): char {
    if 'a' <= c <= 'z' then (c as int - 32) as char else c
  }

  function UpperAscii(s: string): (r: string)
    ensures |r| == |s|
    ensures forall i :: 0 <= i < |s| ==> !('a' <= r[i] <= 'z')
    ensures forall i :: 0 <= i < |s| ==> !('a' <= s[i] <= 'z') ==> r[i] == s[i]
    ensures forall i :: 0 <= i < |s| ==> 'a' <= s[i] <= 'z' ==> 'A' <= r[i] <= 'Z' && r[i] as int + 32 == s[i] as int
  {
    seq(|s|, i requires 0 <= i < |s| => UpperChar(s[i]))
  }

  /** Upper-casing twice is upper-casing once. */
  lemma UpperIdempotent(s: string)
    ensures UpperAscii(UpperAscii(s)) == UpperAscii(s)
  {
  }

  /**
   `predict`: Python truthiness makes both `None` and the empty list fail.
   Success carries the data unchanged and the upper-cased ticker.
   */
  function Predict(ticker: string, data: Option<seq<Sample>>): (r: Response)
    ensures r.body.status == "success" <==> data.Some? && |data.value| > 0
    ensures r.body.status == "success" ==>
      && r.code == 200
      && r.body.data == data
      && r.body.ticker == Some(UpperAscii(ticker))
      && r.body.message.None?
    ensures r.body.status != "success" ==>
      r == Response(500, Reply("error", Some(ServerErrorText), None, None))
  {
    if data.Some? && |data.value| > 0 then
      Response(200, Reply("success", None, data, Some(UpperAscii(ticker))))
    else
      Response(500, Reply("error", Some(ServerErrorText), None, None))
  }

  /**
   The route over a downloaded frame: derive the series, then respond. It
   succeeds exactly for a non-empty frame whose derived list is non-empty,
   and then carries that list.
   */
  function Serve(ticker: string, bars: seq<Bar>, sd: seq<real> -> real): (r: Response)
    ensures r.body.status == "success" <==> |bars| > 0 && |Rows(bars, sd)| > 0
    ensures r.body.status == "success" ==> r.code == 200 && r.body.data == Some(Rows(bars, sd))
    ensures r.body.status != "success" ==> r == Response(500, Reply("error", Some(ServerErrorText), None, None))
  {
    Predict(ticker, GetStockData(bars, sd))
  }

  /**
   The route succeeds exactly when some downloaded row has 20 consecutive
   closes ending at it; an empty frame or one shorter than 20 rows fails.
   */
  lemma ServeSucceedsIff(ticker: string, bars: seq<Bar>, sd: seq<real> -> real)
    ensures Serve(ticker, bars, sd).body.status == "success" <==>
      exists i :: 0 <= i < |bars| && FullWindow(bars, i)
    ensures |bars| < Window ==> Serve(ticker, bars, sd).code == 500
  {
    RowsNonEmptyIff(bars, sd);
    if 0 < |bars| < Window {
      ShortFrameEmpty(bars, sd);
    }
  }
}
