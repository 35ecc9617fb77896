/**
 The summary cards (static/script.js:135-150): the latest price, the latest
 trend and a volatility label, all read from the last sample only.
 */
module Summary {
  import opened Common

  datatype Volatility = High | Stable

  /** The volatility label's text and colour. */
  function LabelText(v: Volatility): string {
    match v
    case High => "HIGH"
    case Stable => "STABLE"
  }

  function LabelColor(v: Volatility): string {
    match v
    case High => "#E50914"
    case Stable => "#46d369"
  }

  /** A band wider than 15% of the close is high volatility. */
  const Threshold: real := 0.15

  /**
   The label compares the band's width with the close: for a positive close
   it is HIGH exactly when the width relative to the close exceeds 15%, and
   for a zero close exactly when the band has any positive width.
   */
  function Classify(s: Sample): (v: Volatility)
    ensures s.close > 0.0 ==> (v == High <==> (s.upper - s.lower) / s.close > Threshold)
    ensures s.close == 0.0 ==> (v == High <==> s.upper > s.lower)
  {
    if s.upper - s.lower > s.close * Threshold then High else Stable
  }

  /**
   Widening the band (same close) can only turn a stable sample volatile,
   never the reverse.
   */
  lemma WiderBandNotCalmer(s: Sample, t: Sample)
    requires s.close == t.close && s.upper - s.lower <= t.upper - t.lower
    ensures Classify(s) == High ==> Classify(t) == High
    ensures Classify(t) == Stable ==> Classify(s) == Stable
  {
  }

  /** The label is a relative measure: scaling every price by the same positive factor keeps it. */
  lemma ClassifyScaleFree(s: Sample, c: real)
    requires c > 0.0
    ensures Classify(Sample(s.date, s.close * c, s.sma * c, s.upper * c, s.lower * c)) == Classify(s)
  {
    var t := Sample(s.date, s.close * c, s.sma * c, s.upper * c, s.lower * c);
    assert t.upper - t.lower == (s.upper - s.lower) * c;
    assert t.close * Threshold == (s.close * Threshold) * c;
    if s.upper - s.lower > s.close * Threshold {
      assert (s.upper - s.lower) * c > (s.close * Threshold) * c;
    } else {
      assert (s.upper - s.lower) * c <= (s.close * Threshold) * c;
    }
  }

  /** The three cards' contents (the two-decimal `$` formatting is not modelled). */
  datatype Cards = Cards(price: real, trend: real, volatility: string, color: string)

  /**
   `updateCards`: the cards for the last sample. An empty series has no last
   sample; reading a field of `undefined` throws, which is `None` here.
   */
  function UpdateCards(data: seq<Sample>): (r: Option<Cards>)
    ensures r.Some? <==> |data| > 0
    ensures r.Some? ==> r.value.price == data[|data| - 1].close && r.value.trend == data[|data| - 1].sma
    ensures r.Some? ==>
      (r.value.volatility == "HIGH" <==> data[|data| - 1].upper - data[|data| - 1].lower > data[|data| - 1].close * Threshold)
    ensures r.Some? ==> (r.value.volatility == "HIGH" && r.value.color == "#E50914") || (r.value.volatility == "STABLE" && r.value.color == "#46d369")
  {
    if |data| == 0 then None
    else
      var latest := data[|data| - 1];
      var v := Classify(latest);
      Some(Cards(latest.close, latest.sma, LabelText(v), LabelColor(v)))
  }

  /** Only the last sample matters: two series ending in the same sample give the same cards. */
  lemma CardsReadOnlyLast(a: seq<Sample>, b: seq<Sample>)
    requires |a| > 0 && |b| > 0 && a[|a| - 1] == b[|b| - 1]
    ensures UpdateCards(a) == UpdateCards(b)
  {
  }

  /**
   Worked cases: a spread of 8 against a threshold of 15 is stable, a spread
   of 20 is high, and the two-day series ending at close 102 (spread 10
   against 15.3) shows 102, 100 and a stable label.
   */
  lemma CardExamples()
    ensures Classify(Sample(0, 100.0, 95.0, 98.0, 90.0)) == Stable
    ensures Classify(Sample(0, 100.0, 95.0, 100.0, 80.0)) == High
    ensures UpdateCards([Sample(1704067200000, 100.0, 99.0, 105.0, 95.0), Sample(1704153600000, 102.0, 100.0, 106.0, 96.0)])
      == Some(Cards(102.0, 100.0, "STABLE", "#46d369"))
  {
  }
}
