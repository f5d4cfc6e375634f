/** The comparison page (`compare.js`): it reads `A` and `B` from its URL, posts both to
    `/predict` with cache-busting tokens, joins the two replies with `Promise.all` and fills
    a five-row table. */
module ComparePage {
  import opened Wrappers
  import opened Text
  import opened Api
  import Urls
  import Home

  const MissingAlert := "Stock symbols missing in URL"
  const CompareErrorAlert := "Error loading comparison data"
  const NoCacheUrl := "/predict?nocache="

  /** One table row: the title cell and the cells of stock A and stock B. */
  datatype Row = Row(title: string, a: string, b: string)

  /** The labels of the five rows and the reply member each row shows, in table order. */
  const Labels: seq<string> := ["Latest Price", "Trend (SMA)", "ML Prediction", "Recommendation", "Confidence (%)"]
  const Columns: seq<Member> := [LatestPrice, TrendPrediction, MlPrediction, RecommendationMember, Confidence]

  /** A URL parameter is falsy when absent (`null`) or empty. */
  predicate Falsy(v: Option<string>)
  {
    v.None? || v.value == ""
  }

  /** `innerText = v`: `null` empties the element. */
  function HeaderText(v: Option<string>): (t: string)
    ensures t == "" <==> Falsy(v)
    ensures !Falsy(v) ==> t == v.value
  {
    if v.None? then "" else v.value
  }

  /** The `symbol` member `JSON.stringify({symbol: v})` sends. */
  function FieldOf(v: Option<string>): (f: SymbolField)
    ensures f.Null? <==> v.None?
    ensures f.Given? ==> Some(f.text) == v
  {
    if v.None? then Null else Given(v.value)
  }

  /** The two cache-busting URLs, from the clock readings `t1` and `t2` taken by the two
      `Date.now()` calls in turn. */
  function NoCacheUrls(t1: nat, t2: nat): (string, string)
  {
    (NoCacheUrl + Decimal(t1), NoCacheUrl + Decimal(t2 + 1))
  }

  /** Unless the clock runs backwards between the two readings, the two requests carry
      different tokens and so different URLs. */
  lemma NoCacheUrlsDistinct(t1: nat, t2: nat)
    requires t1 <= t2
    ensures Decimal(t1) != Decimal(t2 + 1)
    ensures NoCacheUrls(t1, t2).0 != NoCacheUrls(t1, t2).1
  {
    if Decimal(t1) == Decimal(t2 + 1) {
      DecimalInjective(t1, t2 + 1);
    }
    var u1, u2 := NoCacheUrl + Decimal(t1), NoCacheUrl + Decimal(t2 + 1);
    assert u1[|NoCacheUrl|..] == Decimal(t1) && u2[|NoCacheUrl|..] == Decimal(t2 + 1);
  }

  /** Two symbols entered on the home page without `%`, `&`, `+`, `#`,
      controls and spaces are the ones posted. */
  lemma ComparedSymbolsArePosted(input: string, second: string)
    requires !Blank(JavaScript, input) && second != ""
    requires Urls.Plain(Trim(JavaScript, input)) && Urls.Plain(second)
    ensures var href := Home.Compare(input, Some(second)).href;
      FieldOf(Urls.Param(href, "A")) == Given(Trim(JavaScript, input))
      && FieldOf(Urls.Param(href, "B")) == Given(second)
  {
    Home.ComparePlainReadsBack(input, second);
  }

  // ---------------------------------------------------------------- Promise.all

  /** One input of the join: still pending, or fulfilled with a reply body. */
  datatype Slot = Pending | Fulfilled(body: Body)

  /** How the joined promise settles: with the bodies in input order, or rejected. */
  datatype Outcome = AllFulfilled(a: Body, b: Body) | AnyRejected

  /** The joined promise: waiting on its two inputs, or settled. */
  datatype Join = Waiting(first: Slot, second: Slot) | Settled(outcome: Outcome)

  const Start := Waiting(Pending, Pending)

  /** Input `second` (false for A, true for B) settles with `f`. A rejection settles the join
      at once; a value is stored at its input's position, whatever the arrival order; a
      settled join ignores what arrives later. */
  function Arrive(j: Join, second: bool, f: Fetched): (j': Join)
    ensures j.Settled? ==> j' == j
    ensures j.Waiting? && f.Rejected? ==> j' == Settled(AnyRejected)
  {
    match j
    case Settled(_) => j
    case Waiting(sa, sb) =>
      if f.Rejected? then Settled(AnyRejected)
      else
        var sa', sb' := if second then sa else Fulfilled(f.body), if second then Fulfilled(f.body) else sb;
        if sa'.Fulfilled? && sb'.Fulfilled? then Settled(AllFulfilled(sa'.body, sb'.body))
        else Waiting(sa', sb')
  }

  /** The outcome of the join of `fa` and `fb`. */
  function Joined(fa: Fetched, fb: Fetched): (o: Outcome)
    ensures o.AllFulfilled? <==> fa.Resolved? && fb.Resolved?
    ensures o.AllFulfilled? ==> o.a == fa.body && o.b == fb.body
  {
    if fa.Resolved? && fb.Resolved? then AllFulfilled(fa.body, fb.body) else AnyRejected
  }

  /** Whichever reply arrives first, the join settles with A's body first and B's second,
      and rejects when either reply rejects. */
  lemma JoinIsPositional(fa: Fetched, fb: Fetched)
    ensures Arrive(Arrive(Start, false, fa), true, fb) == Settled(Joined(fa, fb))
    ensures Arrive(Arrive(Start, true, fb), false, fa) == Settled(Joined(fa, fb))
  {
  }

  // ---------------------------------------------------------------- table

  /** The five rows the success handler appends: each row's title, then the text of the
      row's member in A's reply and in B's reply. */
  function Rows(a: Body, b: Body, show: real -> string): (rows: seq<Row>)
    ensures |rows| == |Labels| == |Columns| == 5
    ensures forall k :: 0 <= k < 5 ==>
      rows[k] == Row(Labels[k], Show(Get(a, Columns[k]), show), Show(Get(b, Columns[k]), show))
  {
    [Row("Latest Price", Show(Get(a, LatestPrice), show), Show(Get(b, LatestPrice), show)),
     Row("Trend (SMA)", Show(Get(a, TrendPrediction), show), Show(Get(b, TrendPrediction), show)),
     Row("ML Prediction", Show(Get(a, MlPrediction), show), Show(Get(b, MlPrediction), show)),
     Row("Recommendation", Show(Get(a, RecommendationMember), show), Show(Get(b, RecommendationMember), show)),
     Row("Confidence (%)", Show(Get(a, Confidence), show), Show(Get(b, Confidence), show))]
  }

  /** For two prediction records the table compares the two predictions member by member. */
  lemma RowsOfRecords(pa: Prediction, pb: Prediction, show: real -> string)
    ensures Rows(Record(pa), Record(pb), show) ==
      [Row("Latest Price", show(pa.latestPrice), show(pb.latestPrice)),
       Row("Trend (SMA)", pa.trend, pb.trend),
       Row("ML Prediction", pa.ml, pb.ml),
       Row("Recommendation", pa.recommendation, pb.recommendation),
       Row("Confidence (%)", show(pa.confidence as real), show(pb.confidence as real))]
  {
  }

  /** The page's view state. */
  class ComparisonView {
    var headerA: string
    var headerB: string
    var rows: seq<Row>
    var alerts: seq<string>

    constructor ()
      ensures headerA == "" && headerB == "" && rows == [] && alerts == []
    {
      headerA, headerB, rows, alerts := "", "", [], [];
    }

    /** Page load: one alert when `A` or `B` is falsy; the headers are set and the table
        cleared regardless, and both requests are sent. */
    method Open(href: string, t1: nat, t2: nat) returns (ra: Request, rb: Request)
      modifies this
      ensures var a, b := Urls.Param(href, "A"), Urls.Param(href, "B");
        && alerts == old(alerts) + (if Falsy(a) || Falsy(b) then [MissingAlert] else [])
        && headerA == HeaderText(a) && headerB == HeaderText(b)
        && ra == Request(NoCacheUrls(t1, t2).0, FieldOf(a))
        && rb == Request(NoCacheUrls(t1, t2).1, FieldOf(b))
      ensures rows == []
    {
      var stockA, stockB := Urls.Param(href, "A"), Urls.Param(href, "B");
      if Falsy(stockA) || Falsy(stockB) {
        alerts := alerts + [MissingAlert];
      }
      headerA := HeaderText(stockA);
      headerB := HeaderText(stockB);
      rows := [];
      ra := Request(NoCacheUrl + Decimal(t1), FieldOf(stockA));
      rb := Request(NoCacheUrl + Decimal(t2 + 1), FieldOf(stockB));
    }

    /** `addRow`: append one row to the table. */
    method AddRow(title: string, valueA: string, valueB: string)
      modifies this
      ensures rows == old(rows) + [Row(title, valueA, valueB)]
      ensures alerts == old(alerts) && headerA == old(headerA) && headerB == old(headerB)
    {
      rows := rows + [Row(title, valueA, valueB)];
    }

    /** The `.then(([dataA, dataB]) => ...)` and `.catch` handlers of the join. */
    method OnSettled(o: Outcome, show: real -> string)
      modifies this
      ensures o.AllFulfilled? ==> rows == old(rows) + Rows(o.a, o.b, show) && alerts == old(alerts)
      ensures o.AnyRejected? ==> rows == old(rows) && alerts == old(alerts) + [CompareErrorAlert]
      ensures headerA == old(headerA) && headerB == old(headerB)
    {
      match o
      case AllFulfilled(dataA, dataB) =>
        AddRow("Latest Price", Show(Get(dataA, LatestPrice), show), Show(Get(dataB, LatestPrice), show));
        AddRow("Trend (SMA)", Show(Get(dataA, TrendPrediction), show), Show(Get(dataB, TrendPrediction), show));
        AddRow("ML Prediction", Show(Get(dataA, MlPrediction), show), Show(Get(dataB, MlPrediction), show));
        AddRow("Recommendation", Show(Get(dataA, RecommendationMember), show), Show(Get(dataB, RecommendationMember), show));
        AddRow("Confidence (%)", Show(Get(dataA, Confidence), show), Show(Get(dataB, Confidence), show));
      case AnyRejected =>
        alerts := alerts + [CompareErrorAlert];
    }
  }

  /** As written, a 400 reply for B (a symbol with no price data) does not reject the join:
      the table is filled and B's column reads "undefined" in every row, with no alert. */
  lemma ErrorReplyFillsUndefinedColumn(pa: Prediction, e: string, show: real -> string)
    ensures Joined(Deliver(Ok(pa)), Deliver(BadRequest(e))) == AllFulfilled(Record(pa), ErrorObject(e))
    ensures forall k :: 0 <= k < 5 ==> Rows(Record(pa), ErrorObject(e), show)[k].b == "undefined"
  {
  }

  /** When non-2xx replies are rejected, the table is filled only when both predictions
      succeeded, and then from the two prediction records. */
  lemma CheckedJoinIsAllOrNothing(ra: PredictReply, rb: PredictReply)
    ensures Joined(DeliverChecked(ra), DeliverChecked(rb)).AllFulfilled? <==> ra.Ok? && rb.Ok?
    ensures ra.Ok? && rb.Ok? ==>
      Joined(DeliverChecked(ra), DeliverChecked(rb)) == AllFulfilled(Record(ra.prediction), Record(rb.prediction))
  {
  }
}
