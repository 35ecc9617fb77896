/**
 The page controller (static/script.js:7-28): the response dispatch of
 `fetchData` and what the chart container shows afterwards. The network
 request itself is not modelled; its outcome is the parameter `Fetched`.
 */
module Controller {
  import opened Common
  import opened Geometry
  import opened Summary

  const LoadingText: string := "Running Quantitative Model..."
  const FetchErrorText: string := "Error fetching data."

  /** What the awaited request gave: a parsed reply, or a rejection (network failure or a body that is not JSON). */
  datatype Fetched = Received(reply: Reply) | Failed

  /**
   The outcome of handling one response: a message in the chart container,
   or a drawn chart together with the cards `updateCards` computed for it.
   The cards are carried here only as that outcome; what the page's cards
   show is `Page.cards`, which `Step` takes from a drawn outcome.
   */
  datatype View = Message(text: string) | Drawn(chart: Chart, cards: Cards)

  /** A template literal renders an absent message as `undefined`. */
  function MessageText(m: Option<string>): string {
    m.GetOr("undefined")
  }

  /**
   The dispatch. An `error` status shows the reply's message and neither
   draws nor updates the cards. Any other status draws the chart and then
   the cards; a missing data list (`forEach` of `undefined`) or an empty one
   (`updateCards` reads a field of `undefined`) throws, and the `catch`
   replaces the container with the generic text, as for a failed request.
   */
  function FetchData(f: Fetched): (v: View)
    ensures v.Drawn? <==>
      f.Received? && f.reply.status != "error" && f.reply.data.Some? && |f.reply.data.value| > 0
    ensures v.Drawn? ==>
      v.chart == Render(f.reply.data.value) && Some(v.cards) == UpdateCards(f.reply.data.value)
    ensures f.Received? && f.reply.status == "error" ==> v == Message(MessageText(f.reply.message))
    ensures v.Message? && !(f.Received? && f.reply.status == "error") ==> v.text == FetchErrorText
  {
    match f
    case Failed => Message(FetchErrorText)
    case Received(reply) =>
      if reply.status == "error" then Message(MessageText(reply.message))
      else if reply.data.None? || |reply.data.value| == 0 then Message(FetchErrorText)
      else
        var data := reply.data.value;
        Drawn(Render(data), UpdateCards(data).value)
  }

  /** The chart container: empty before the first request, loading, or a handled response. */
  datatype Container = Blank | Loading | Shown(view: View)

  /**
   The page: the chart container and the three summary cards, which sit
   outside it. Only `updateCards` writes the cards, so they keep the last
   drawn reply's contents until another reply is drawn; `None` is their
   initial content from the page template, which is not part of this model.
   */
  datatype Page = Page(container: Container, cards: Option<Cards>)

  /** Page events: a request is issued, or some earlier request's outcome arrives. */
  datatype Event = Submit | Arrive(outcome: Fetched)

  /** The event is an arrival whose reply gets drawn, and so rewrites the cards. */
  predicate Draws(e: Event) {
    e.Arrive? && FetchData(e.outcome).Drawn?
  }

  /**
   One event: a submit puts the loading text in the container, an arrival
   its handled response; the cards change only when that response is drawn.
   */
  function Step(p: Page, e: Event): (r: Page)
    ensures e.Submit? ==> r.container == Loading
    ensures e.Arrive? ==> r.container == Shown(FetchData(e.outcome))
    ensures Draws(e) ==> r.cards == Some(FetchData(e.outcome).cards)
    ensures !Draws(e) ==> r.cards == p.cards
  {
    match e
    case Submit => p.(container := Loading)
    case Arrive(f) =>
      var v := FetchData(f);
      Page(Shown(v), if v.Drawn? then Some(v.cards) else p.cards)
  }

  /**
   A sequence of events, oldest first. Whatever happens, the cards on screen
   are either the initial ones or those of some drawn arrival.
   */
  function Run(p: Page, events: seq<Event>): (r: Page)
    ensures r.cards == p.cards ||
      exists k :: 0 <= k < |events| && Draws(events[k]) && r.cards == Some(FetchData(events[k].outcome).cards)
    decreases |events|
  {
    if |events| == 0 then p else Run(Step(p, events[0]), events[1..])
  }

  /**
   No request is tagged or cancelled, so the container shows whatever
   happened last: after the last arrival (stale or not) its outcome, and
   after a submit the loading text.
   */
  lemma {:induction false} LastEventWins(p: Page, events: seq<Event>)
    requires |events| > 0
    ensures events[|events| - 1].Submit? ==> Run(p, events).container == Loading
    ensures events[|events| - 1].Arrive? ==>
      Run(p, events).container == Shown(FetchData(events[|events| - 1].outcome))
    decreases |events|
  {
    if |events| > 1 {
      LastEventWins(Step(p, events[0]), events[1..]);
      assert events[1..][|events[1..]| - 1] == events[|events| - 1];
    }
  }

  /**
   The cards show the last drawn arrival, through any later submit, error
   reply or failure; with no drawn arrival they keep their initial content.
   */
  lemma {:induction false} LastDrawnCards(p: Page, events: seq<Event>)
    ensures forall j :: 0 <= j < |events| && Draws(events[j]) && (forall k :: j < k < |events| ==> !Draws(events[k])) ==>
      Run(p, events).cards == Some(FetchData(events[j].outcome).cards)
    ensures (forall k :: 0 <= k < |events| ==> !Draws(events[k])) ==> Run(p, events).cards == p.cards
    decreases |events|
  {
    if |events| > 0 {
      var q := Step(p, events[0]);
      var rest := events[1..];
      assert Run(p, events) == Run(q, rest);
      LastDrawnCards(q, rest);
      forall k | 1 <= k < |events|
        ensures rest[k - 1] == events[k]
      {
      }
    }
  }

  /**
   The worked cases: an error reply shows its message verbatim, and a
   two-day series ending at close 102 draws with cards 102, 100 and a stable
   label.
   */
  lemma DispatchExamples()
    ensures FetchData(Received(Reply("error", Some("Unknown ticker"), None, None))) == Message("Unknown ticker")
    ensures var data := [Sample(1704067200000, 100.0, 99.0, 105.0, 95.0), Sample(1704153600000, 102.0, 100.0, 106.0, 96.0)];
      FetchData(Received(Reply("success", None, Some(data), Some("AAPL")))).Drawn?
      && FetchData(Received(Reply("success", None, Some(data), Some("AAPL")))).cards == Cards(102.0, 100.0, "STABLE", "#46d369")
  {
  }

  /**
   After the two-day series is drawn, a new submit and an error reply
   replace the container but leave its cards on screen.
   */
  lemma StaleCardsStay()
    ensures var data := [Sample(1704067200000, 100.0, 99.0, 105.0, 95.0), Sample(1704153600000, 102.0, 100.0, 106.0, 96.0)];
      var p := Run(Page(Blank, None), [Arrive(Received(Reply("success", None, Some(data), Some("AAPL")))), Submit,
                                       Arrive(Received(Reply("error", Some("x"), None, None)))]);
      p.container == Shown(Message("x")) && p.cards == Some(Cards(102.0, 100.0, "STABLE", "#46d369"))
  {
    var data := [Sample(1704067200000, 100.0, 99.0, 105.0, 95.0), Sample(1704153600000, 102.0, 100.0, 106.0, 96.0)];
    var ok := Arrive(Received(Reply("success", None, Some(data), Some("AAPL"))));
    var bad := Arrive(Received(Reply("error", Some("x"), None, None)));
    var events := [ok, Submit, bad];
    DispatchExamples();
    var p1 := Step(Page(Blank, None), ok);
    assert p1.cards == Some(Cards(102.0, 100.0, "STABLE", "#46d369"));
    var p2 := Step(p1, Submit);
    var p3 := Step(p2, bad);
    assert p3.container == Shown(Message("x")) && p3.cards == p1.cards;
    assert events[1..] == [Submit, bad] && [Submit, bad][1..] == [bad] && [bad][1..] == [];
    assert Run(p2, [bad]) == Run(p3, []) == p3;
    assert Run(p1, [Submit, bad]) == Run(p2, [bad]);
    assert Run(Page(Blank, None), events) == Run(p1, [Submit, bad]);
  }
}
