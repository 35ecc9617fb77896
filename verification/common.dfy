/**
 Shared vocabulary of the chart back end and front end: the optional value
 used for JavaScript `undefined` and pandas `NaN`, and the one record that the
 server emits per trading day and the browser draws.
 */
module Common {

  /** An optional value: `None` stands for JavaScript `undefined` or a pandas `NaN`. */
  datatype Option<+T> = None | Some(value: T) {
    /** The carried value, or `default` when there is none. */
    function GetOr(default: T): T {
      match this
      case Some(v) => v
      case None => default
    }
  }

  /**
   One trading-day observation. `date` is the JavaScript time value of the
   parsed `YYYY-MM-DD` date (whole milliseconds); prices are exact reals
   (the two-decimal rounding of the server is not modelled).
   */
  datatype Sample = Sample(date: int, close: real, sma: real, upper: real, lower: real)

  /** The dates of a series are strictly increasing (the order the server emits). */
  ghost predicate Ascending(data: seq<Sample>) {
    forall i, j :: 0 <= i < j < |data| ==> data[i].date < data[j].date
  }

  /** The parsed server reply: every field other than `status` may be absent. */
  datatype Reply = Reply(status: string, message: Option<string>, data: Option<seq<Sample>>, ticker: Option<string>)
}
