# Stock lookup app: the decision rules and the view updates

The app is a Flask service (`app.py`) with three browser pages.

- The home page (`script.js`) offers autocomplete suggestions from `/search` and has two buttons. One navigates to `/result?symbol=…`, the other to `/compare?A=…&B=…`.
- The result page (`result.js`) posts its symbol to `/predict` and renders the prediction.
- The comparison page (`compare.js`) posts two symbols at once, joins the replies with `Promise.all` and fills a five-row table.

The model covers the discrete logic of these four files.

- The `/search` filter-and-truncate loop.
- The `/predict` symbol check, decision rule, explanation builder and chart window.
- The query gate, ranking and top-five cut of the autocomplete box.
- The URL builders and the way each page reads its URL back.
- The render, error and loader paths of the result page.
- The cache-busting tokens, the positional join and the table of the comparison page.

Modules, one per concern:

- `Wrappers`: `Option`.
- `Text`: JavaScript `trim` and Python `strip`, ASCII upper-casing, `startsWith`, `includes` and decimal rendering.
- `Api`: the reply records, and what `fetch(...).then(res => res.json())` makes of a reply.
- `Urls`: `URLSearchParams.get` over a page URL, and a percent-encoding.
- `Backend`: `app.py`.
- `Home`: `script.js`.
- `ResultPage`: `result.js`.
- `ComparePage`: `compare.js`.

How the external world enters the model:

- Things outside the app become parameters: the market-data fetch, the two direction signals, the price figures, the upstream search answer, the clock readings and JavaScript's number-to-string conversion.
- Pages that change state in place are classes with `modifies` clauses. `SearchBox`, `ResultView` with its two `ListView` lists, and `ComparisonView` each keep their visible state in fields.
- Pure rules are functions with lemmas beside them.

Where the code and its comments or documentation disagree, the model follows the code.

- The comment at `script.js:21` says three characters; the query gate needs two.
- When a search fails, the handler only logs. The box keeps its previous entries; it is not emptied.
- The result page sends `/predict` without a cache-busting token. Only the comparison page adds one.
- The search handler has no guard against stale replies. Whichever reply settles last fills the box.

## Model

| member | source | states |
|---|---|---|
| Text.Trim | script.js:19 | the trimmed text is empty exactly when the input is all whitespace, and otherwise neither starts nor ends with whitespace |
| Text.TrimCutsEnds | script.js:19 | the trimmed text is the input with a blank head and a blank tail cut off: it sits in the input at some offset, with only whitespace before and after it |
| Text.Upper | app.py:138 | upper-casing keeps the length and maps each character through the ASCII upper-case table |
| Text.Contains | result.js:47-49 | `includes` holds only for a substring no longer than the text, and always for the empty one; `Text.ContainsInfix` and `Text.MissingHeadNotContained` give the two directions the badge rule needs |
| Text.DecimalInjective | compare.js:38-44 | two clock readings with the same decimal text are equal |
| Api.Deliver | result.js:29 | as written: a 500 reply rejects, a 400 reply resolves with its error object, and only a 200 reply resolves with a prediction |
| Api.DeliverChecked | result.js:29 | with non-2xx replies rejected, the chain resolves exactly for a 200 reply, and then with its prediction |
| Api.Get | result.js:34-44 | reading a prediction member of a reply body is `undefined` exactly for an error object |
| Backend.Listing | app.py:41-53 | the loop's `results` holds at most one suggestion per quote, each with a non-empty symbol |
| Backend.ListingSelectsOffered | app.py:41-53 | the collected suggestions are exactly the entries of the offered quotes (type EQUITY, non-empty symbol), one per such quote, in input order; an entry carries the quote's symbol and its short name, or "" when that is absent |
| Backend.Collect | app.py:41-53 | the filter loop, appending one entry per offered quote, leaves exactly `Listing` of the quotes |
| Backend.Take | app.py:55 | `results[:8]` is the first min(8, n) items |
| Backend.SearchCompany | app.py:31-58 | a blank stripped query returns [] without calling upstream; a failed upstream call returns []; otherwise the reply is the first at most 8 offered entries, and never more than 8 |
| Backend.SearchResultsAreOffered | app.py:41-55 | the k-th search result is the entry of the k-th offered quote |
| Backend.Tail | app.py:87 | `tail(90)` is the last min(90, n) rows |
| Backend.Complete | app.py:89 | `dropna()` keeps every complete row and only complete rows, each taken from the input |
| Backend.CompleteAppend | app.py:89 | cleaning keeps the row order: cleaning two stretches one after the other gives the cleaned first followed by the cleaned second |
| Backend.Window | app.py:87-89 | the chart window has at most 90 rows, all complete and all among the last 90, and it holds every complete row of the last 90 |
| Backend.WindowInOrder | app.py:87-89 | the window is the cleaned last 90 rows in frame order: split anywhere within them, it is the cleaned part before the split followed by the cleaned part after it |
| Backend.ChartOf | app.py:91-97 | the five chart arrays have one common length of at most 90, and their k-th entries are the date and the rounded prices of the same window row |
| Backend.Recommend | app.py:100-119 | STRONG BUY iff both signals are UP, STRONG SELL iff both are DOWN, HOLD otherwise; confidence 75 for the strong verdicts and 50 for HOLD; two reasons for the strong verdicts and one for HOLD |
| Backend.Explain | app.py:122-134 | exactly three lines: bullish iff trend is UP (bearish for any other value, NOT_ENOUGH_DATA included), positive momentum iff the ML signal is UP, then the fixed volatility note |
| Backend.Predict | app.py:63-149 | a `null` symbol makes the service fail (500); an absent or blank symbol gives 400 "No symbol provided"; an empty frame gives 400 "Data not available"; otherwise 200 with the stripped symbol upper-cased, the verdict of the two signals, the explanation, the chart of the frame with its prices rounded, and the figures |
| Urls.ParamIgnoresTrailingSpace | result.js:1-2 | `URLSearchParams.get` on the page reached through a URL reads the same parameters when the URL ends in a space, which the URL parser strips on navigation |
| Urls.Encode | script.js:81 | the encoded value holds no `&`, `#` or `+`, and no control character or space that the URL parser would strip or drop |
| Urls.DecodeEncode | script.js:81 | decoding undoes encoding for every string |
| Home.Matching | script.js:35-38 | the items of one match status, in reply order |
| Home.Ranked | script.js:35-38 | the ranking keeps the reply's length; the lemmas below give its order |
| Home.RankedPermutes | script.js:35-38 | ranking is a permutation of the reply |
| Home.RankedPartitioned | script.js:35-38 | after ranking, every item whose symbol starts with the upper-cased query stands before every item whose symbol does not |
| Home.RankedStable | script.js:35-38 | ranking keeps the reply's order within each group |
| Home.StableSortIsRanked | script.js:35-38 | any partitioned order that keeps the order within both groups is the ranking, so the model's ranking is what the stable `sort` leaves |
| Home.Shown | script.js:43 | the box holds exactly the first min(5, n) ranked items |
| Home.ShownIsTopOfRanking | script.js:43-54 | each shown item is the ranked item at its position, and a matching item is never below a non-matching one |
| Home.SearchBox.OnInput | script.js:18-28 | a trimmed query that is empty or shorter than 2 characters clears the box and sends nothing; otherwise `SearchUrl` of the trimmed query, `/search?q=` plus the query unencoded, is requested and the box is left as it was |
| Home.SearchBox.OnSearchReply | script.js:29-60 | a failed search leaves the box as it was; a reply clears the box and then refills it with the first five ranked items, so an empty reply leaves it empty; the input is not touched |
| Home.SearchBox.OnSuggestionClick | script.js:49-52 | a click on an entry puts that entry's symbol into the input and empties the box |
| Home.SearchBox.OnDocumentClick | script.js:64-68 | a click outside the input empties the box, a click on it changes nothing; the input is not touched |
| Home.Submit | script.js:71-82 | a blank trimmed input alerts and does not navigate; otherwise the page goes to `/result?symbol=` plus the trimmed input |
| Home.Compare | script.js:87-98 | a blank first symbol alerts; a cancelled or empty prompt does nothing; otherwise the page goes to `/compare?A=first&B=second`, with the second answer untrimmed |
| Home.SubmitPlainReadsBack | script.js:81 | a symbol without `%`, `&`, `+`, `#`, controls or spaces is read back unchanged by the result page |
| Home.ComparePlainReadsBack | script.js:97 | two such symbols are read back unchanged as `A` and `B` by the comparison page |
| Home.CompareDropsTrailingSpace | script.js:94-97 | as written, a prompt answer ending in a space goes into the URL with it, and the comparison page reads `B` without it |
| Home.SubmitCutsAtAmpersand | script.js:81 | as written, for a symbol `head&tail` with a non-empty head free of `%`, `&`, `+`, `#`, controls and spaces, and a non-empty tail free of `#`, controls and spaces, the result page reads only `head` |
| Home.SubmitLosesAmpersand | script.js:81 | as written, the ticker "M&M.NS" arrives as "M" |
| Home.SubmitEncoded | script.js:71-82 | the corrected submit alerts for a blank input, and otherwise navigates to the encoded symbol |
| Home.SubmitEncodedReadsBack | script.js:81 | with encoding, the result page reads back exactly the trimmed input, whatever it contains, spaces and controls included |
| Home.CompareEncoded | script.js:87-98 | the corrected compare button has the same alert and abort rules, and navigates with both symbols encoded |
| Home.CompareEncodedReadsBack | script.js:97 | with encoding, the comparison page reads back exactly both symbols, a trailing space of the prompt answer included |
| Home.SearchCutsAtAmpersand | script.js:28 | as written, a query `head&tail` reaches the service's `q` argument as `head` |
| Home.SearchLosesAmpersand | script.js:28 | as written, typing "M&M" searches the service for "M" |
| Home.SearchUrlEncoded | script.js:28 | with the query encoded, the service's `q` argument is exactly the query |
| ResultPage.RecommendationClass | result.js:46-53 | exactly one of buy, sell or hold; buy iff the text contains BUY, even with SELL; sell iff it contains SELL and not BUY; hold otherwise |
| ResultPage.ClassOfVerdict | result.js:47-53 | composed with the service's decision rule: STRONG BUY is shown as buy, STRONG SELL as sell, HOLD as hold |
| ResultPage.ReadoutOf | result.js:34-44 | for a prediction the symbol, recommendation and the two labelled signals are the prediction's; for an error object the symbol and recommendation read "undefined"; the change is green iff the body is a prediction with a change >= 0 |
| ResultPage.ChangeColour | result.js:37 | green (#4cd137) iff the change is a number >= 0, red (#e84118) otherwise, an absent change included |
| ResultPage.ReadoutOfRecord | result.js:34-44 | a prediction is shown member by member: the symbol, "₹ " plus the price, `change (change_pct%)`, the colour of the change's sign, the two labelled signals, the recommendation and the confidence |
| ResultPage.ReadoutOfError | result.js:34-44 | an error object is shown as "undefined" in every field, behind the same fixed labels, with the change red |
| ResultPage.RequestFor | result.js:1-28 | the page posts to `/predict` the URL's `symbol` parameter, or JSON `null` when there is none |
| ResultPage.SubmittedSymbolIsPosted | result.js:1-2 | a plain symbol submitted on the home page is the symbol the result page posts |
| ResultPage.ListView.Replace | result.js:56-61 | the list is cleared and then holds exactly the given entries, in order |
| ResultPage.ResultView.Open | result.js:17-28 | an absent or empty symbol raises one alert, the loader is shown either way, and the request is still sent |
| ResultPage.ResultView.Fail | result.js:87-90 | the loader is hidden and exactly one "Error loading stock data" alert is added; nothing else changes |
| ResultPage.ResultView.WriteTexts | result.js:34-44 | the eight text fields hold the given readout; the loader, the alerts and the badge's classes are unchanged |
| ResultPage.ResultView.Render | result.js:30-70 | the loader is hidden; for a prediction the texts, the badge's single class and both lists show it, with no alert; for an error object the texts read "undefined", the class is reset, the lists are untouched, and one alert follows |
| ResultPage.ResultView.OnSettled | result.js:29-90 | the loader is hidden on every path; a rejected chain adds one alert and changes nothing else; a resolved chain renders as above |
| ResultPage.ErrorReplyRendersUndefined | result.js:29-47 | as written, a 400 reply is rendered, with "undefined" as the symbol and the recommendation |
| ResultPage.CheckedReplyRendersPrediction | result.js:29 | with non-2xx replies rejected, a resolved chain always carries the prediction, and the page shows it |
| ComparePage.HeaderText | compare.js:15-16 | a header is empty exactly when the parameter is absent or empty, and otherwise shows the parameter |
| ComparePage.FieldOf | compare.js:41 | the posted `symbol` is `null` exactly when the parameter is absent, and otherwise that parameter |
| ComparePage.NoCacheUrlsDistinct | compare.js:38-44 | the two requests go to `/predict?nocache=` followed by the decimal text of the first clock reading and of the second reading plus one; unless the clock runs backwards between the readings, the two tokens and URLs differ |
| ComparePage.ComparedSymbolsArePosted | compare.js:4-6 | two plain symbols entered on the home page are the ones the comparison page posts as A and B |
| ComparePage.Arrive | compare.js:37-49 | a settled join ignores later arrivals, and a rejection settles a waiting join as rejected |
| ComparePage.Joined | compare.js:37-50 | the join fulfils iff both replies resolve, with A's body first and B's second |
| ComparePage.JoinIsPositional | compare.js:37-50 | in either arrival order the join settles with the same outcome: A's body first, B's second, rejected if either rejects |
| ComparePage.Rows | compare.js:55-59 | exactly five rows, labelled Latest Price, Trend (SMA), ML Prediction, Recommendation, Confidence (%) in that order; column A always from A's body and column B from B's |
| ComparePage.RowsOfRecords | compare.js:55-59 | for two predictions each row shows the same member of A and of B |
| ComparePage.ComparisonView.Open | compare.js:4-48 | one alert when A or B is absent or empty; the headers are set anyway, the table is cleared and both requests are built |
| ComparePage.ComparisonView.AddRow | compare.js:24-32 | the table gains exactly one row, at the end |
| ComparePage.ComparisonView.OnSettled | compare.js:50-65 | a fulfilled join appends the five rows with no alert; a rejected join appends nothing and adds exactly one alert; the headers stay |
| ComparePage.ErrorReplyFillsUndefinedColumn | compare.js:42-59 | as written, a 400 reply for B fulfils the join, and B's column reads "undefined" in all five rows |
| ComparePage.CheckedJoinIsAllOrNothing | compare.js:37-49 | with non-2xx replies rejected, the table is filled iff both predictions succeed, and then from the two predictions |

## Left out

- `model.py`: the market-data download, the moving-average trend and the random-forest direction. They are the parameters `fetch`, `trendOf` and `mlOf` of `Backend.Predict`.
- Price arithmetic and `round(…, 2)` at `app.py:80-84` and `app.py:139-141`, and the chart's `round(2)` at `app.py:93-96`. These are floating-point results; the parameter `figuresOf` supplies the figures, and the parameter `round2` of `Backend.ChartOf` and `Backend.Predict` rounds each chart price.
- Date parsing and formatting of the chart at `app.py:88` and `app.py:92`. Dates are strings. A missing date counts as a missing value, so `dropna` drops that row. An unparsable date makes `pd.to_datetime` raise, and `/predict` fails with a 500; that path is not modelled.
- JavaScript's number-to-string conversion. It is the parameter `show`; NaN and infinities are not represented.
- Flask routing, `render_template`, `jsonify`, and HTTP itself. Replies are the datatype `PredictReply`; a request is a URL and the body's `symbol` member.
- The upstream search HTTP call and its exception handling. The answer is the parameter `upstream`, and any failure is `Unavailable`.
- Quote entries that are not objects, and keys present with JSON `null`. To the model, a `null` short name looks absent and becomes "", while the service would send `null`.
- Plotly charting (`result.js:74-85`), the alert auto-hide timer, element lookup, and the HTML markup of the suggestion items and table cells. `alert` is a list of messages that each page appends to.
- `Home.SearchBox.OnSearchReply`: the in-place `data.sort` is modelled by its result `Ranked`, which `Home.StableSortIsRanked` shows is the only stable outcome. The sorting algorithm itself is not modelled.
- Event scheduling: the search handler is split into `OnInput` and `OnSearchReply` at its `await`. Replies may apply in any order, as in the code. The outside-click test `symbolInput.contains(e.target)` is a boolean parameter.
- Unicode: upper-casing covers ASCII letters only. Strings are sequences of code points, so `query.length` counts code points, not UTF-16 units.
- The URL parser is modelled only in its clean-up (`Urls.Navigated`: leading and trailing controls and spaces are stripped, tabs and line breaks removed) and its query split. Its percent-encoding of the remaining characters, such as a space inside the URL becoming `%20`, is not modelled. Percent-escapes decode to one character each, not as UTF-8 byte sequences. Flask's reading of the `q` argument is modelled by the same reader.
- Urls.Encode: the corrected members escape only `%`, `&`, `+`, `#`, the controls and the space, the characters the reader and the URL parser treat specially. This is weaker than `encodeURIComponent`, which escapes every character outside its unreserved set.
- The plain read-back lemmas (`Home.SubmitPlainReadsBack`, `Home.ComparePlainReadsBack`, `ResultPage.SubmittedSymbolIsPosted`, `ComparePage.ComparedSymbolsArePosted`) assume the symbols hold no control character or space; `Home.CompareDropsTrailingSpace` shows what happens otherwise.
- `Date.now()`: the two readings are natural-number parameters of `ComparisonView.Open`.

## Findings

| source | as written | input that shows it | evidently intended | confidence | as-written member | corrected member |
|---|---|---|---|---|---|---|
| script.js:81 | the symbol is put into `/result?symbol=…` unencoded | the NSE ticker "M&M.NS": the result page reads "M" | `encodeURIComponent(symbol)`, so the page reads back the symbol typed | not executed | Home.SubmitLosesAmpersand | Home.SubmitEncodedReadsBack |
| result.js:29 | `res.json()` is used without checking `res.ok`, so a 400 reply `{"error": …}` is rendered as a prediction | a symbol with no price data: the fields read "undefined", then `includes` throws and the error alert follows | reject non-2xx replies before rendering | not executed | ResultPage.ErrorReplyRendersUndefined | ResultPage.CheckedReplyRendersPrediction |
| script.js:28 | the query is put into `/search?q=…` unencoded | typing "M&M": the service's `q` argument is "M" | encode the query, so the service searches for what was typed | not executed | Home.SearchLosesAmpersand | Home.SearchUrlEncoded |
| compare.js:48 | each fetch resolves on a 400 reply, so `Promise.all` fulfils and no alert is shown | B is a symbol with no price data: all five B cells read "undefined" | reject non-2xx replies, so the table is filled only when both predictions succeed | not executed | ComparePage.ErrorReplyFillsUndefinedColumn | ComparePage.CheckedJoinIsAllOrNothing |
