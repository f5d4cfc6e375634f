/** The records exchanged between the browser pages and the Flask service, and what the
    browser's `fetch(...).then(res => res.json())` makes of a reply. */
module Api {
  import opened Wrappers

  /** One autocomplete entry `{symbol, name}` of the `/search` reply. */
  datatype Suggestion = Suggestion(symbol: string, name: string)

  /** The candlestick series of a prediction: five parallel arrays. */
  datatype Chart = Chart(dates: seq<string>, open: seq<real>, high: seq<real>, low: seq<real>, close: seq<real>)

  /** The JSON object of a successful `/predict` reply. Numbers are the JSON numbers' values. */
  datatype Prediction = Prediction(
    symbol: string,
    latestPrice: real,
    change: real,
    changePct: real,
    trend: string,
    ml: string,
    recommendation: string,
    confidence: int,
    reason: seq<string>,
    explanation: seq<string>,
    chart: Chart)

  /** The `symbol` member of a `/predict` request body: the browser pages send a string, or
      `null` when the page's URL has no such parameter (`JSON.stringify({symbol: null})`). */
  datatype SymbolField = Missing | Null | Given(text: string)

  /** A `/predict` reply: 200 with a prediction, 400 with `{"error": ...}`, or 500 with the
      framework's HTML error page (an uncaught server exception). */
  datatype PredictReply = Ok(prediction: Prediction) | BadRequest(error: string) | ServerError

  /** The JSON value a page receives once `res.json()` resolves. */
  datatype Body = Record(prediction: Prediction) | ErrorObject(error: string)

  /** How a page's `fetch(...).then(res => res.json())` chain settles. */
  datatype Fetched = Rejected | Resolved(body: Body)

  /** A request the page issues: the URL and the `symbol` member of the JSON body. */
  datatype Request = Request(url: string, symbol: SymbolField)

  /** The chain as the pages write it: `fetch` resolves whatever the HTTP status, so a
      400 reply still yields its JSON body; only a body that is not JSON rejects. */
  function Deliver(reply: PredictReply): (f: Fetched)
    ensures f.Rejected? <==> reply.ServerError?
    ensures reply.BadRequest? ==> f.Resolved? && f.body.ErrorObject?
    ensures f.Resolved? && f.body.Record? <==> reply.Ok?
    ensures reply.Ok? ==> f.body.prediction == reply.prediction
  {
    match reply
    case Ok(p) => Resolved(Record(p))
    case BadRequest(e) => Resolved(ErrorObject(e))
    case ServerError => Rejected
  }

  /** The chain as evidently intended: a reply whose status is not 2xx is rejected
      (`if (!res.ok) throw ...` before `res.json()`), so a page only ever resolves with a
      prediction record. */
  function DeliverChecked(reply: PredictReply): (f: Fetched)
    ensures f.Resolved? <==> reply.Ok?
    ensures f.Resolved? ==> f.body == Record(reply.prediction)
  {
    match reply
    case Ok(p) => Resolved(Record(p))
    case _ => Rejected
  }

  /** A JavaScript value read from a reply body: a member an object lacks reads as `undefined`. */
  datatype JsValue = Undefined | Str(s: string) | Num(x: real)

  /** The members of a prediction record the pages read. */
  datatype Member = SymbolMember | LatestPrice | Change | ChangePct | TrendPrediction
                  | MlPrediction | RecommendationMember | Confidence

  /** `data.<member>`: an error object `{"error": ...}` has none of the prediction's members. */
  function Get(body: Body, m: Member): (v: JsValue)
    ensures v.Undefined? <==> body.ErrorObject?
    ensures body.Record? && m in {SymbolMember, TrendPrediction, MlPrediction, RecommendationMember} ==> v.Str?
  {
    match body
    case ErrorObject(_) => Undefined
    case Record(p) =>
      match m
      case SymbolMember => Str(p.symbol)
      case LatestPrice => Num(p.latestPrice)
      case Change => Num(p.change)
      case ChangePct => Num(p.changePct)
      case TrendPrediction => Str(p.trend)
      case MlPrediction => Str(p.ml)
      case RecommendationMember => Str(p.recommendation)
      case Confidence => Num(p.confidence as real)
  }

  /** A value's text as string concatenation, a template literal or `innerText = v` render it;
      `show` is JavaScript's number-to-string conversion. */
  function Show(v: JsValue, show: real -> string): (t: string)
    ensures v.Undefined? ==> t == "undefined"
    ensures v.Str? ==> t == v.s
    ensures v.Num? ==> t == show(v.x)
  {
    match v
    case Undefined => "undefined"
    case Str(s) => s
    case Num(x) => show(x)
  }
}
