/** The Flask service of app.py: the `/search` suggestion filter and the `/predict` decision
    rules. The market-data fetch, the two direction producers and the price arithmetic are
    supplied as parameters. */
module Backend {
  import opened Wrappers
  import opened Text
  import opened Api

  // ---------------------------------------------------------------- search

  /** One entry of the upstream search reply's `quotes` array; each key may be absent. */
  datatype Quote = Quote(quoteType: Option<string>, symbol: Option<string>, shortname: Option<string>)

  /** The upstream search call: it raised (timeout, connection error, a reply that is not a
      JSON object), or it answered with an object whose `quotes` key may be absent. */
  datatype Upstream = Unavailable | Answered(quotes: Option<seq<Quote>>)

  const SearchLimit: nat := 8
  const UpstreamSearchUrl := "https://query1.finance.yahoo.com/v1/finance/search?q="

  /** A quote is offered when it is an equity and its symbol is present and non-empty. */
  predicate Offered(q: Quote)
  {
    q.quoteType == Some("EQUITY") && q.symbol.Some? && q.symbol.value != ""
  }

  /** The suggestion built from a quote; an absent short name becomes the empty string. */
  function EntryOf(q: Quote): Suggestion
    requires q.symbol.Some?
  {
    Suggestion(q.symbol.value, if q.shortname.Some? then q.shortname.value else "")
  }

  /** The suggestions the loop collects from `quotes`, before truncation. */
  function Listing(quotes: seq<Quote>): (r: seq<Suggestion>)
    ensures |r| <= |quotes|
    ensures forall k :: 0 <= k < |r| ==> r[k].symbol != ""
  {
    if quotes == [] then []
    else
      var last := quotes[|quotes| - 1];
      Listing(quotes[..|quotes| - 1]) + (if Offered(last) then [EntryOf(last)] else [])
  }

  /** The positions of the offered quotes, in increasing order. */
  function OfferedPositions(quotes: seq<Quote>): seq<nat>
  {
    if quotes == [] then []
    else
      OfferedPositions(quotes[..|quotes| - 1])
      + (if Offered(quotes[|quotes| - 1]) then [|quotes| - 1] else [])
  }

  /** `Listing` is exactly the offered quotes, converted, in input order: the k-th suggestion
      comes from the k-th offered quote, positions strictly increase, and every offered quote
      is represented. */
  lemma {:induction false} ListingSelectsOffered(quotes: seq<Quote>)
    ensures var pos := OfferedPositions(quotes);
      && |Listing(quotes)| == |pos|
      && (forall k :: 0 <= k < |pos| ==>
            pos[k] < |quotes| && Offered(quotes[pos[k]]) && Listing(quotes)[k] == EntryOf(quotes[pos[k]]))
      && (forall k, l :: 0 <= k < l < |pos| ==> pos[k] < pos[l])
      && (forall j :: 0 <= j < |quotes| && Offered(quotes[j]) ==> j in pos)
  {
    if quotes != [] {
      var n := |quotes| - 1;
      var init, last := quotes[..n], quotes[n];
      ListingSelectsOffered(init);
      assert forall j :: 0 <= j < n ==> init[j] == quotes[j];
      var pi, li := OfferedPositions(init), Listing(init);
      if Offered(last) {
        assert OfferedPositions(quotes) == pi + [n];
        assert Listing(quotes) == li + [EntryOf(last)];
      } else {
        assert OfferedPositions(quotes) == pi;
        assert Listing(quotes) == li;
      }
    }
  }

  /** At most the first `n` elements of `s` (Python's `s[:n]`). */
  function Take<T>(s: seq<T>, n: nat): (r: seq<T>)
    ensures |r| <= n && |r| <= |s|
    ensures |r| == if |s| < n then |s| else n
    ensures r == s[..|r|]
  {
    if |s| <= n then s else s[..n]
  }

  /** The `/search` endpoint. `q` is the request's `q` argument; `upstream` is what the
      upstream search would answer. `lookup` is the upstream URL requested, if any. */
  method SearchCompany(q: Option<string>, upstream: Upstream) returns (results: seq<Suggestion>, lookup: Option<string>)
    ensures var query := Trim(Python, if q.Some? then q.value else "");
      && (query == [] ==> results == [] && lookup == None)
      && (query != [] ==> lookup == Some(UpstreamSearchUrl + query))
      && (query != [] && upstream.Unavailable? ==> results == [])
      && (query != [] && upstream.Answered? ==>
            results == Take(Listing(if upstream.quotes.Some? then upstream.quotes.value else []), SearchLimit))
    ensures |results| <= SearchLimit
  {
    var query := Trim(Python, if q.Some? then q.value else "");
    if query == [] {
      return [], None;
    }
    lookup := Some(UpstreamSearchUrl + query);
    if upstream.Unavailable? {
      return [], lookup;
    }
    var quotes := if upstream.quotes.Some? then upstream.quotes.value else [];
    var collected := Collect(quotes);
    results := Take(collected, SearchLimit);
  }

  /** The `for item in data.get("quotes", [])` loop: it appends the entry of every offered
      quote to `results`, in order. */
  method Collect(quotes: seq<Quote>) returns (collected: seq<Suggestion>)
    ensures collected == Listing(quotes)
  {
    collected := [];
    var i := 0;
    while i < |quotes|
      invariant 0 <= i <= |quotes|
      invariant collected == Listing(quotes[..i])
    {
      var item := quotes[i];
      assert quotes[..i + 1][..i] == quotes[..i];
      if item.quoteType == Some("EQUITY") {
        if item.symbol.Some? && item.symbol.value != "" {
          collected := collected + [EntryOf(item)];
        }
      }
      i := i + 1;
    }
    assert quotes[..|quotes|] == quotes;
  }

  /** Every search result is the entry of an offered quote, the results keep the input
      order, and they are the first ones offered. */
  lemma SearchResultsAreOffered(quotes: seq<Quote>, k: nat)
    requires k < |Take(Listing(quotes), SearchLimit)|
    ensures var pos := OfferedPositions(quotes);
      k < |pos| && pos[k] < |quotes| && Offered(quotes[pos[k]]) && Take(Listing(quotes), SearchLimit)[k] == EntryOf(quotes[pos[k]])
  {
    ListingSelectsOffered(quotes);
  }

  // ---------------------------------------------------------------- predict

  /** One row of the daily price frame; `complete` is false when any column is missing. */
  datatype Bar = Bar(date: string, open: real, high: real, low: real, close: real, complete: bool)

  /** The latest price, the change since the previous close and that change in percent. */
  datatype Figures = Figures(latestPrice: real, change: real, changePct: real)

  const ChartDays: nat := 90

  /** The last `n` rows (`df.tail(n)`). */
  function Tail<T>(s: seq<T>, n: nat): (r: seq<T>)
    ensures |r| == if |s| < n then |s| else n
    ensures r == s[|s| - |r|..]
  {
    if |s| <= n then s else s[|s| - n..]
  }

  /** The rows without missing values, in order (`dropna()`). */
  function Complete(rows: seq<Bar>): (r: seq<Bar>)
    ensures |r| <= |rows|
    ensures forall k :: 0 <= k < |r| ==> r[k].complete && r[k] in rows
    ensures forall k :: 0 <= k < |rows| && rows[k].complete ==> rows[k] in r
  {
    if rows == [] then []
    else (if rows[0].complete then [rows[0]] else []) + Complete(rows[1..])
  }

  /** Cleaning keeps the order of the rows: cleaning two stretches of rows one after the
      other gives the cleaned first stretch followed by the cleaned second. */
  lemma {:induction false} CompleteAppend(a: seq<Bar>, b: seq<Bar>)
    ensures Complete(a + b) == Complete(a) + Complete(b)
  {
    if a == [] {
      assert a + b == b;
    } else {
      assert (a + b)[0] == a[0];
      assert (a + b)[1..] == a[1..] + b;
      CompleteAppend(a[1..], b);
    }
  }

  /** The chart window: the last 90 rows, cleaned. */
  function Window(frame: seq<Bar>): (w: seq<Bar>)
    ensures |w| <= ChartDays
    ensures forall k :: 0 <= k < |w| ==> w[k].complete && w[k] in Tail(frame, ChartDays)
    ensures forall k :: |frame| - |Tail(frame, ChartDays)| <= k < |frame| && frame[k].complete ==> frame[k] in w
  {
    var last := Tail(frame, ChartDays);
    assert forall k :: |frame| - |last| <= k < |frame| ==> frame[k] == last[k - (|frame| - |last|)];
    Complete(last)
  }

  /** The window is the cleaned last 90 rows in frame order: splitting the frame anywhere
      within its last 90 rows, the window is the cleaned part before the split followed by
      the cleaned part after it. */
  lemma WindowInOrder(frame: seq<Bar>, cut: nat)
    requires |frame| - |Tail(frame, ChartDays)| <= cut <= |frame|
    ensures Window(frame) == Complete(frame[|frame| - |Tail(frame, ChartDays)|..cut]) + Complete(frame[cut..])
  {
    var start := |frame| - |Tail(frame, ChartDays)|;
    assert Tail(frame, ChartDays) == frame[start..cut] + frame[cut..];
    CompleteAppend(frame[start..cut], frame[cut..]);
  }

  /** The five chart arrays are projections of the same window rows, so they have one
      common length of at most 90; the prices go through `round2`, pandas' `round(2)`. */
  function ChartOf(frame: seq<Bar>, round2: real -> real): (c: Chart)
    ensures |c.dates| == |c.open| == |c.high| == |c.low| == |c.close| == |Window(frame)| <= ChartDays
    ensures forall k :: 0 <= k < |c.dates| ==>
      var b := Window(frame)[k];
      c.dates[k] == b.date && c.open[k] == round2(b.open) && c.high[k] == round2(b.high)
      && c.low[k] == round2(b.low) && c.close[k] == round2(b.close)
  {
    var w := Window(frame);
    Chart(seq(|w|, k requires 0 <= k < |w| => w[k].date),
          seq(|w|, k requires 0 <= k < |w| => round2(w[k].open)),
          seq(|w|, k requires 0 <= k < |w| => round2(w[k].high)),
          seq(|w|, k requires 0 <= k < |w| => round2(w[k].low)),
          seq(|w|, k requires 0 <= k < |w| => round2(w[k].close)))
  }

  /** The recommendation, its confidence and the reasons given for it. */
  datatype Verdict = Verdict(recommendation: string, confidence: int, reason: seq<string>)

  const StrongBuy := "STRONG BUY"
  const StrongSell := "STRONG SELL"
  const Hold := "HOLD"

  /** The decision rule: both signals up is a strong buy, both down a strong sell, anything
      else (disagreement, or a signal without enough data) a hold. */
  function Recommend(trend: string, ml: string): (v: Verdict)
    ensures v.recommendation == StrongBuy <==> trend == "UP" && ml == "UP"
    ensures v.recommendation == StrongSell <==> trend == "DOWN" && ml == "DOWN"
    ensures v.recommendation == Hold <==> !(trend == "UP" && ml == "UP") && !(trend == "DOWN" && ml == "DOWN")
    ensures v.confidence == if v.recommendation == Hold then 50 else 75
    ensures |v.reason| == if v.recommendation == Hold then 1 else 2
  {
    if trend == "UP" && ml == "UP" then
      Verdict(StrongBuy, 75, ["Trend is bullish", "ML model predicts upward movement"])
    else if trend == "DOWN" && ml == "DOWN" then
      Verdict(StrongSell, 75, ["Trend is bearish", "ML model predicts downward movement"])
    else
      Verdict(Hold, 50, ["Trend and ML prediction are not aligned"])
  }

  const TrendBullish := "Short-term trend is bullish based on moving averages"
  const TrendBearish := "Short-term trend is bearish based on moving averages"
  const MomentumPositive := "ML model detected positive price momentum"
  const MomentumNegative := "ML model detected negative price momentum"
  const VolatilityNote := "Historical volatility and price behavior were considered"

  /** The three explanation lines for the two signals: the trend line is bullish only for
      "UP" (every other value, "NOT_ENOUGH_DATA" included, reads bearish), likewise the
      momentum line, and the last line is fixed. */
  ghost predicate Explains(trend: string, ml: string, e: seq<string>)
  {
    && |e| == 3
    && (e[0] == TrendBullish <==> trend == "UP")
    && (e[0] == TrendBearish <==> trend != "UP")
    && (e[1] == MomentumPositive <==> ml == "UP")
    && (e[1] == MomentumNegative <==> ml != "UP")
    && e[2] == VolatilityNote
  }

  /** Builds the explanation list by successive appends. */
  method Explain(trend: string, ml: string) returns (explanation: seq<string>)
    ensures Explains(trend, ml, explanation)
  {
    explanation := [];
    if trend == "UP" {
      explanation := explanation + [TrendBullish];
    } else {
      explanation := explanation + [TrendBearish];
    }
    if ml == "UP" {
      explanation := explanation + [MomentumPositive];
    } else {
      explanation := explanation + [MomentumNegative];
    }
    explanation := explanation + [VolatilityNote];
  }

  const NoSymbolError := "No symbol provided"
  const NoDataError := "Data not available"

  /** The `/predict` endpoint. `field` is the request body's `symbol` member; `fetch` is the
      six-month daily frame for a symbol, `trendOf` and `mlOf` the two direction signals,
      `figuresOf` the rounded price figures of a frame, `round2` the rounding of a chart price. */
  method Predict(field: SymbolField, fetch: string -> seq<Bar>, trendOf: seq<Bar> -> string,
                 mlOf: string -> string, figuresOf: seq<Bar> -> Figures, round2: real -> real)
    returns (reply: PredictReply)
    ensures field.Null? ==> reply == ServerError
    ensures field.Missing? ==> reply == BadRequest(NoSymbolError)
    ensures field.Given? && Blank(Python, field.text) ==> reply == BadRequest(NoSymbolError)
    ensures field.Given? && !Blank(Python, field.text) ==>
      var symbol := Trim(Python, field.text);
      var frame := fetch(symbol);
      && (frame == [] ==> reply == BadRequest(NoDataError))
      && (frame != [] ==>
            && reply.Ok?
            && var p := reply.prediction;
            var verdict := Recommend(trendOf(frame), mlOf(symbol));
            && p.symbol == Upper(symbol)
            && p.trend == trendOf(frame) && p.ml == mlOf(symbol)
            && p.recommendation == verdict.recommendation
            && p.confidence == verdict.confidence
            && p.reason == verdict.reason
            && Explains(p.trend, p.ml, p.explanation)
            && p.chart == ChartOf(frame, round2)
            && p.latestPrice == figuresOf(frame).latestPrice
            && p.change == figuresOf(frame).change
            && p.changePct == figuresOf(frame).changePct)
  {
    if field.Null? {
      // `None.strip()` raises, and the framework answers 500
      return ServerError;
    }
    var symbol := Trim(Python, if field.Given? then field.text else "");
    if symbol == [] {
      return BadRequest(NoSymbolError);
    }
    var frame := fetch(symbol);
    if frame == [] {
      return BadRequest(NoDataError);
    }
    var trend := trendOf(frame);
    var ml := mlOf(symbol);
    var figures := figuresOf(frame);
    var chart := ChartOf(frame, round2);
    var verdict := Recommend(trend, ml);
    var explanation := Explain(trend, ml);
    reply := Ok(Prediction(Upper(symbol), figures.latestPrice, figures.change, figures.changePct,
                           trend, ml, verdict.recommendation, verdict.confidence, verdict.reason,
                           explanation, chart));
  }
}
