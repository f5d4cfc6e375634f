/** The single-result page (`result.js`): it reads `symbol` from its URL, posts it to
    `/predict` and projects the reply onto the page's text fields, the recommendation badge's
    class, the reason and explanation lists and the loader. */
module ResultPage {
  import opened Wrappers
  import opened Text
  import opened Api
  import Urls
  import Backend
  import Home

  const NoSymbolAlert := "No stock symbol provided"
  const LoadErrorAlert := "Error loading stock data"
  const PredictUrl := "/predict"
  const Rupee := "\U{20B9} "
  const Green := "#4cd137"
  const Red := "#e84118"

  /** The class the recommendation badge receives: "BUY" anywhere wins over "SELL". */
  function RecommendationClass(rec: string): (c: string)
    ensures c == "buy" || c == "sell" || c == "hold"
    ensures c == "buy" <==> Contains(rec, "BUY")
    ensures c == "sell" <==> !Contains(rec, "BUY") && Contains(rec, "SELL")
    ensures c == "hold" <==> !Contains(rec, "BUY") && !Contains(rec, "SELL")
  {
    if Contains(rec, "BUY") then "buy" else if Contains(rec, "SELL") then "sell" else "hold"
  }

  /** The badge classes of the three recommendation texts. */
  lemma ClassOfStrongBuy()
    ensures RecommendationClass(Backend.StrongBuy) == "buy"
  {
    assert Backend.StrongBuy == "STRONG " + "BUY" + "";
    ContainsInfix("STRONG ", "BUY", "");
  }

  lemma ClassOfStrongSell()
    ensures RecommendationClass(Backend.StrongSell) == "sell"
  {
    assert Backend.StrongSell == "STRONG " + "SELL" + "";
    ContainsInfix("STRONG ", "SELL", "");
    MissingHeadNotContained(Backend.StrongSell, "BUY");
  }

  lemma ClassOfHold()
    ensures RecommendationClass(Backend.Hold) == "hold"
  {
    MissingHeadNotContained(Backend.Hold, "BUY");
    MissingHeadNotContained(Backend.Hold, "SELL");
  }

  /** The three recommendations the service issues get the badge their wording suggests. */
  lemma ClassOfVerdict(trend: string, ml: string)
    ensures RecommendationClass(Backend.Recommend(trend, ml).recommendation)
      == if trend == "UP" && ml == "UP" then "buy"
         else if trend == "DOWN" && ml == "DOWN" then "sell"
         else "hold"
  {
    var rec := Backend.Recommend(trend, ml).recommendation;
    if trend == "UP" && ml == "UP" {
      ClassOfStrongBuy();
    } else if trend == "DOWN" && ml == "DOWN" {
      ClassOfStrongSell();
    } else {
      assert rec == Backend.Hold;
      ClassOfHold();
    }
  }

  /** The colour of the change text: green exactly when `data.change >= 0` holds, which an
      absent member (`undefined >= 0` is false) never satisfies. */
  function ChangeColour(change: JsValue): (c: string)
    ensures c == Green || c == Red
    ensures c == Green <==> change.Num? && change.x >= 0.0
  {
    if change.Num? && change.x >= 0.0 then Green else Red
  }

  /** The eight text fields of the page, in the order the render assigns them. */
  datatype Readout = Readout(symbol: string, price: string, change: string, colour: string,
                             trend: string, ml: string, recommendation: string, confidence: string)

  /** What the render writes into the text fields for a reply body. */
  function ReadoutOf(body: Body, show: real -> string): (r: Readout)
    ensures body.Record? ==>
      && r.symbol == body.prediction.symbol
      && r.recommendation == body.prediction.recommendation
      && r.trend == "Trend (SMA): " + body.prediction.trend
      && r.ml == "ML Prediction: " + body.prediction.ml
    ensures body.ErrorObject? ==> r.symbol == "undefined" && r.recommendation == "undefined"
    ensures r.colour == Green <==> body.Record? && body.prediction.change >= 0.0
  {
    Readout(Show(Get(body, SymbolMember), show),
            Rupee + Show(Get(body, LatestPrice), show),
            Show(Get(body, Change), show) + " (" + Show(Get(body, ChangePct), show) + "%)",
            ChangeColour(Get(body, Change)),
            "Trend (SMA): " + Show(Get(body, TrendPrediction), show),
            "ML Prediction: " + Show(Get(body, MlPrediction), show),
            Show(Get(body, RecommendationMember), show),
            Show(Get(body, Confidence), show))
  }

  /** A prediction record is shown member by member, behind the fixed labels. */
  lemma ReadoutOfRecord(p: Prediction, show: real -> string)
    ensures ReadoutOf(Record(p), show)
      == Readout(p.symbol, Rupee + show(p.latestPrice),
                 show(p.change) + " (" + show(p.changePct) + "%)",
                 if p.change >= 0.0 then Green else Red,
                 "Trend (SMA): " + p.trend, "ML Prediction: " + p.ml,
                 p.recommendation, show(p.confidence as real))
  {
  }

  /** An error object has none of the members, so every field shows "undefined" and the
      change is red. */
  lemma ReadoutOfError(e: string, show: real -> string)
    ensures ReadoutOf(ErrorObject(e), show)
      == Readout("undefined", Rupee + "undefined", "undefined (undefined%)", Red,
                 "Trend (SMA): undefined", "ML Prediction: undefined", "undefined", "undefined")
  {
    var u := "undefined";
    assert u + " (" + u + "%)" == "undefined (undefined%)";
    assert "Trend (SMA): " + u == "Trend (SMA): undefined";
    assert "ML Prediction: " + u == "ML Prediction: undefined";
  }

  /** The request the page sends for its URL: `symbol` becomes JSON `null` when the URL has
      no such parameter. */
  function RequestFor(href: string): (r: Request)
    ensures r.url == PredictUrl
    ensures r.symbol == Null <==> Urls.Param(href, "symbol").None?
    ensures r.symbol.Given? ==> Some(r.symbol.text) == Urls.Param(href, "symbol")
    ensures !r.symbol.Missing?
  {
    var symbol := Urls.Param(href, "symbol");
    Request(PredictUrl, if symbol.None? then Null else Given(symbol.value))
  }

  /** A symbol typed on the home page without `%`, `&`, `+`, `#`, controls
      and spaces is the one posted. */
  lemma SubmittedSymbolIsPosted(input: string)
    requires !Blank(JavaScript, input) && Urls.Plain(Trim(JavaScript, input))
    ensures RequestFor(Home.Submit(input).href) == Request(PredictUrl, Given(Trim(JavaScript, input)))
  {
    Home.SubmitPlainReadsBack(input);
  }

  /** A `<ul>` the page clears and refills. */
  class ListView {
    var items: seq<string>

    constructor ()
      ensures items == []
    {
      items := [];
    }

    /** `innerHTML = ""`, then one `appendChild` per entry, in order. */
    method Replace(entries: seq<string>)
      modifies this
      ensures items == entries
    {
      items := [];
      var i := 0;
      while i < |entries|
        invariant 0 <= i <= |entries|
        invariant items == entries[..i]
      {
        items := items + [entries[i]];
        i := i + 1;
      }
    }
  }

  /** The page's view state. */
  class ResultView {
    var loaderShown: bool
    var alerts: seq<string>
    var symbolText: string
    var priceText: string
    var changeText: string
    var changeColour: string
    var trendText: string
    var mlText: string
    var recText: string
    var confText: string
    var recClasses: set<string>
    const reasonList: ListView
    const explainList: ListView

    predicate Valid()
      reads this
    {
      reasonList != explainList
    }

    function Shown(): Readout
      reads this
    {
      Readout(symbolText, priceText, changeText, changeColour, trendText, mlText, recText, confText)
    }

    constructor ()
      ensures Valid() && fresh(reasonList) && fresh(explainList)
      ensures !loaderShown && alerts == [] && recClasses == {}
      ensures Shown() == Readout("", "", "", "", "", "", "", "")
      ensures reasonList.items == [] && explainList.items == []
    {
      loaderShown := false;
      alerts := [];
      symbolText, priceText, changeText, changeColour := "", "", "", "";
      trendText, mlText, recText, confText := "", "", "", "";
      recClasses := {};
      reasonList := new ListView();
      explainList := new ListView();
    }

    /** Page load: alert when `symbol` is absent or empty, but show the loader and send the
        request anyway. */
    method Open(href: string) returns (request: Request)
      modifies this
      ensures request == RequestFor(href)
      ensures var symbol := Urls.Param(href, "symbol");
        alerts == old(alerts) + (if symbol.None? || symbol.value == "" then [NoSymbolAlert] else [])
      ensures loaderShown
      ensures Shown() == old(Shown()) && recClasses == old(recClasses)
    {
      var symbol := Urls.Param(href, "symbol");
      if symbol.None? || symbol.value == "" {
        alerts := alerts + [NoSymbolAlert];
      }
      loaderShown := true;
      request := Request(PredictUrl, if symbol.None? then Null else Given(symbol.value));
    }

    /** The `.catch` handler. */
    method Fail()
      modifies this
      ensures !loaderShown && alerts == old(alerts) + [LoadErrorAlert]
      ensures Shown() == old(Shown()) && recClasses == old(recClasses)
    {
      loaderShown := false;
      alerts := alerts + [LoadErrorAlert];
    }

    /** The `.then(data => ...)` handler. For an error object the text fields are written
        first; `data.recommendation.includes` then throws on `undefined` and the
        `.catch` handler runs, with the badge's class already reset and the lists untouched. */
    method Render(body: Body, show: real -> string)
      requires Valid()
      modifies this, reasonList, explainList
      ensures Valid() && !loaderShown
      ensures Shown() == ReadoutOf(body, show)
      ensures body.Record? ==>
        && recClasses == {RecommendationClass(body.prediction.recommendation)}
        && reasonList.items == body.prediction.reason
        && explainList.items == body.prediction.explanation
        && alerts == old(alerts)
      ensures body.ErrorObject? ==>
        && recClasses == {}
        && reasonList.items == old(reasonList.items)
        && explainList.items == old(explainList.items)
        && alerts == old(alerts) + [LoadErrorAlert]
    {
      loaderShown := false;
      WriteTexts(ReadoutOf(body, show));
      recClasses := {};
      match body
      case Record(p) =>
        recClasses := recClasses + {RecommendationClass(p.recommendation)};
        reasonList.Replace(p.reason);
        explainList.Replace(p.explanation);
      case ErrorObject(_) =>
        Fail();
    }

    /** The eight assignments of the text fields, `liveSymbol` through `confidenceText`. */
    method WriteTexts(r: Readout)
      modifies this
      ensures Shown() == r
      ensures loaderShown == old(loaderShown) && alerts == old(alerts) && recClasses == old(recClasses)
    {
      symbolText, priceText, changeText, changeColour := r.symbol, r.price, r.change, r.colour;
      trendText, mlText, recText, confText := r.trend, r.ml, r.recommendation, r.confidence;
    }

    /** What the page does once `fetch(...).then(res => res.json())` settles. */
    method OnSettled(f: Fetched, show: real -> string)
      requires Valid()
      modifies this, reasonList, explainList
      ensures Valid() && !loaderShown
      ensures f.Rejected? ==>
        && Shown() == old(Shown()) && recClasses == old(recClasses)
        && reasonList.items == old(reasonList.items)
        && explainList.items == old(explainList.items)
        && alerts == old(alerts) + [LoadErrorAlert]
      ensures f.Resolved? ==> Shown() == ReadoutOf(f.body, show)
      ensures f.Resolved? && f.body.Record? ==>
        && recClasses == {RecommendationClass(f.body.prediction.recommendation)}
        && reasonList.items == f.body.prediction.reason
        && explainList.items == f.body.prediction.explanation
        && alerts == old(alerts)
      ensures f.Resolved? && f.body.ErrorObject? ==>
        && recClasses == {}
        && reasonList.items == old(reasonList.items)
        && explainList.items == old(explainList.items)
        && alerts == old(alerts) + [LoadErrorAlert]
    {
      match f
      case Rejected =>
        Fail();
      case Resolved(body) =>
        Render(body, show);
    }
  }

  /** As written, a 400 reply (a blank symbol, or a symbol with no price data) is rendered:
      every text field reads "undefined" before the error alert. */
  lemma ErrorReplyRendersUndefined(e: string, show: real -> string)
    ensures Deliver(BadRequest(e)) == Resolved(ErrorObject(e))
    ensures ReadoutOf(Deliver(BadRequest(e)).body, show).symbol == "undefined"
    ensures ReadoutOf(Deliver(BadRequest(e)).body, show).recommendation == "undefined"
  {
  }

  /** When non-2xx replies are rejected, whatever resolves is a prediction record: the page
      shows either that prediction or only the error alert. */
  lemma CheckedReplyRendersPrediction(reply: PredictReply, show: real -> string)
    ensures DeliverChecked(reply).Resolved? <==> reply.Ok?
    ensures reply.Ok? ==> var p := reply.prediction;
      ReadoutOf(DeliverChecked(reply).body, show).symbol == p.symbol
      && ReadoutOf(DeliverChecked(reply).body, show).recommendation == p.recommendation
      && ReadoutOf(DeliverChecked(reply).body, show).trend == "Trend (SMA): " + p.trend
  {
  }
}
