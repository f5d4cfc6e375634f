/** The search page of script.js: the autocomplete box fed by `/search`, its ranking of
    suggestions, and the two buttons that navigate to the result and comparison pages. */
module Home {
  import opened Wrappers
  import opened Text
  import opened Api
  import opened Urls

  // ---------------------------------------------------------------- ranking

  const MinQueryLength: nat := 2
  const ShownLimit: nat := 5

  /** The input handler only searches for a trimmed query of at least two characters. */
  predicate Searchable(query: string)
  {
    query != [] && |query| >= MinQueryLength
  }

  /** A suggestion matches when its symbol starts with the upper-cased query. */
  predicate SymbolMatch(query: string, item: Suggestion)
  {
    StartsWith(item.symbol, Upper(query))
  }

  /** The items whose match status is `wanted`, in input order. */
  function Matching(query: string, items: seq<Suggestion>, wanted: bool): (r: seq<Suggestion>)
    ensures |r| <= |items|
    ensures forall k :: 0 <= k < |r| ==> SymbolMatch(query, r[k]) == wanted
  {
    if items == [] then []
    else (if SymbolMatch(query, items[0]) == wanted then [items[0]] else []) + Matching(query, items[1..], wanted)
  }

  /** The order `data.sort` leaves: the comparator puts a matching item before a
      non-matching one and ties the rest, and the sort is stable. */
  function Ranked(query: string, items: seq<Suggestion>): (r: seq<Suggestion>)
    ensures |r| == |items|
  {
    MatchingSplits(query, items);
    var r := Matching(query, items, true) + Matching(query, items, false);
    assert multiset(r) == multiset(items);
    assert |r| == |multiset(r)| == |multiset(items)| == |items|;
    r
  }

  /** Every matching item stands before every non-matching one. */
  predicate Partitioned(query: string, s: seq<Suggestion>)
  {
    forall i, j :: 0 <= i < |s| && 0 <= j < |s| && SymbolMatch(query, s[i]) && !SymbolMatch(query, s[j]) ==> i < j
  }

  lemma {:induction false} MatchingAppend(query: string, a: seq<Suggestion>, b: seq<Suggestion>, wanted: bool)
    ensures Matching(query, a + b, wanted) == Matching(query, a, wanted) + Matching(query, b, wanted)
  {
    if a == [] {
      assert a + b == b;
    } else {
      assert (a + b)[0] == a[0];
      assert (a + b)[1..] == a[1..] + b;
      MatchingAppend(query, a[1..], b, wanted);
    }
  }

  lemma {:induction false} MatchingAgain(query: string, items: seq<Suggestion>, wanted: bool)
    ensures Matching(query, Matching(query, items, wanted), wanted) == Matching(query, items, wanted)
    ensures Matching(query, Matching(query, items, wanted), !wanted) == []
  {
    if items != [] {
      MatchingAgain(query, items[1..], wanted);
      var head := if SymbolMatch(query, items[0]) == wanted then [items[0]] else [];
      MatchingAppend(query, head, Matching(query, items[1..], wanted), wanted);
      MatchingAppend(query, head, Matching(query, items[1..], wanted), !wanted);
    }
  }

  lemma {:induction false} MatchingSplits(query: string, items: seq<Suggestion>)
    ensures multiset(Matching(query, items, true)) + multiset(Matching(query, items, false)) == multiset(items)
  {
    if items != [] {
      var h, t := items[0], items[1..];
      MatchingSplits(query, t);
      var mt, mf := Matching(query, t, true), Matching(query, t, false);
      assert multiset(items) == multiset{h} + multiset(t) by { assert items == [h] + t; }
      if SymbolMatch(query, h) {
        assert Matching(query, items, true) == [h] + mt;
        assert Matching(query, items, false) == mf;
        assert multiset([h] + mt) == multiset{h} + multiset(mt);
      } else {
        assert Matching(query, items, true) == mt;
        assert Matching(query, items, false) == [h] + mf;
        assert multiset([h] + mf) == multiset{h} + multiset(mf);
      }
    }
  }

  /** Ranking is a permutation of the reply. */
  lemma RankedPermutes(query: string, items: seq<Suggestion>)
    ensures multiset(Ranked(query, items)) == multiset(items)
  {
    MatchingSplits(query, items);
  }

  /** After ranking, every item whose symbol starts with the upper-cased query comes before
      every item that does not. */
  lemma RankedPartitioned(query: string, items: seq<Suggestion>)
    ensures Partitioned(query, Ranked(query, items))
  {
    var t, f := Matching(query, items, true), Matching(query, items, false);
    var r := Ranked(query, items);
    forall i, j | 0 <= i < |r| && 0 <= j < |r| && SymbolMatch(query, r[i]) && !SymbolMatch(query, r[j])
      ensures i < j
    {
    }
  }

  /** Ranking is stable: within each group the reply's order is kept. */
  lemma RankedStable(query: string, items: seq<Suggestion>)
    ensures Matching(query, Ranked(query, items), true) == Matching(query, items, true)
    ensures Matching(query, Ranked(query, items), false) == Matching(query, items, false)
  {
    var t, f := Matching(query, items, true), Matching(query, items, false);
    MatchingAppend(query, t, f, true);
    MatchingAppend(query, t, f, false);
    MatchingAgain(query, items, true);
    MatchingAgain(query, items, false);
  }

  /** No item of `s` has match status `wanted`: the group is empty. */
  lemma {:induction false} MatchingNone(query: string, s: seq<Suggestion>, wanted: bool)
    requires forall k :: 0 <= k < |s| ==> SymbolMatch(query, s[k]) != wanted
    ensures Matching(query, s, wanted) == []
  {
    if s != [] {
      assert forall k :: 0 <= k < |s[1..]| ==> s[1..][k] == s[k + 1];
      MatchingNone(query, s[1..], wanted);
    }
  }

  /** Dropping the first item keeps a sequence partitioned. */
  lemma PartitionedTail(query: string, s: seq<Suggestion>)
    requires s != [] && Partitioned(query, s)
    ensures Partitioned(query, s[1..])
  {
    var tail := s[1..];
    forall i, j | 0 <= i < |tail| && 0 <= j < |tail| && SymbolMatch(query, tail[i]) && !SymbolMatch(query, tail[j])
      ensures i < j
    {
      assert s[i + 1] == tail[i] && s[j + 1] == tail[j];
    }
  }

  /** In a partitioned sequence that starts with a non-matching item, nothing matches. */
  lemma PartitionedAfterMiss(query: string, s: seq<Suggestion>)
    requires s != [] && Partitioned(query, s) && !SymbolMatch(query, s[0])
    ensures Matching(query, s[1..], true) == []
  {
    var tail := s[1..];
    forall k | 0 <= k < |tail|
      ensures !SymbolMatch(query, tail[k])
    {
      assert s[k + 1] == tail[k];
    }
    MatchingNone(query, tail, true);
  }

  lemma {:induction false} PartitionedIsGroups(query: string, s: seq<Suggestion>)
    requires Partitioned(query, s)
    ensures s == Matching(query, s, true) + Matching(query, s, false)
  {
    if s != [] {
      var h, tail := s[0], s[1..];
      PartitionedTail(query, s);
      PartitionedIsGroups(query, tail);
      var t, f := Matching(query, tail, true), Matching(query, tail, false);
      assert s == [h] + tail;
      if SymbolMatch(query, h) {
        assert Matching(query, s, true) == [h] + t;
        assert Matching(query, s, false) == f;
        Assoc([h], t, f);
      } else {
        PartitionedAfterMiss(query, s);
        assert Matching(query, s, true) == [];
        assert Matching(query, s, false) == [h] + f;
      }
    }
  }

  /** The ranking is the only order a stable sort with this comparator can produce: any
      permutation that is partitioned and keeps the order within each group equals it. */
  lemma StableSortIsRanked(query: string, items: seq<Suggestion>, out: seq<Suggestion>)
    requires Partitioned(query, out)
    requires Matching(query, out, true) == Matching(query, items, true)
    requires Matching(query, out, false) == Matching(query, items, false)
    ensures out == Ranked(query, items)
  {
    PartitionedIsGroups(query, out);
  }

  /** The first at most five ranked items: what the box shows. */
  function Shown(query: string, items: seq<Suggestion>): (r: seq<Suggestion>)
    ensures |r| == if |items| < ShownLimit then |items| else ShownLimit
    ensures r == Ranked(query, items)[..|r|]
  {
    var ranked := Ranked(query, items);
    if |ranked| <= ShownLimit then ranked else ranked[..ShownLimit]
  }

  /** The autocomplete request as written: the trimmed query goes into the URL raw. */
  function SearchUrl(query: string): string
  {
    "/search?q=" + query
  }

  // ---------------------------------------------------------------- the box

  /** The search input and the suggestion box under it. */
  class SearchBox {
    /** `symbolInput.value` */
    var value: string
    /** The entries currently in `suggestionsDiv`, top to bottom. */
    var shown: seq<Suggestion>

    constructor ()
      ensures value == "" && shown == []
    {
      value, shown := "", [];
    }

    /** The user types: the input now holds `text`. */
    method Type(text: string)
      modifies this
      ensures value == text && shown == old(shown)
    {
      value := text;
    }

    /** The first half of the `input` handler, up to the `fetch`: a query shorter than two
        characters clears the box and sends nothing; otherwise the handler requests `/search`
        with the raw trimmed query and waits, leaving the box as it was. */
    method OnInput() returns (query: string, request: Option<string>)
      modifies this
      ensures query == Trim(JavaScript, value) && value == old(value)
      ensures request.None? <==> !Searchable(query)
      ensures request.None? ==> shown == []
      ensures request.Some? ==> request.value == SearchUrl(query) && shown == old(shown)
    {
      query := Trim(JavaScript, value);
      if query == [] || |query| < MinQueryLength {
        shown := [];
        return query, None;
      }
      request := Some(SearchUrl(query));
    }

    /** The second half of the `input` handler, when the search for `query` settles:
        `reply` is the parsed array, or `None` when the fetch or the parse failed, which is
        only logged and leaves the box as it was. Otherwise the box is cleared, and refilled
        with the first five ranked items. Whichever search settles last wins. */
    method OnSearchReply(query: string, reply: Option<seq<Suggestion>>)
      modifies this
      ensures value == old(value)
      ensures reply.None? ==> shown == old(shown)
      ensures reply.Some? ==> shown == Shown(query, reply.value)
    {
      if reply.None? {
        return;
      }
      var data := reply.value;
      shown := [];
      if |data| == 0 {
        return;
      }
      var ranked := Ranked(query, data);
      var top := Shown(query, data);
      var i := 0;
      while i < |top|
        invariant 0 <= i <= |top|
        invariant shown == top[..i] && value == old(value)
      {
        shown := shown + [ranked[i]];
        i := i + 1;
      }
    }

    /** A click on the `k`-th entry puts its symbol into the input and empties the box. */
    method OnSuggestionClick(k: nat)
      requires k < |shown|
      modifies this
      ensures value == old(shown[k].symbol) && shown == []
    {
      value := shown[k].symbol;
      shown := [];
    }

    /** A click anywhere: outside the input it empties the box. */
    method OnDocumentClick(onInput: bool)
      modifies this
      ensures value == old(value)
      ensures shown == if onInput then old(shown) else []
    {
      if !onInput {
        shown := [];
      }
    }
  }

  /** The box never shows more than five entries, and what it shows is the start of the
      ranking: the exact first `min(5, n)` ranked items. */
  lemma ShownIsTopOfRanking(query: string, items: seq<Suggestion>, k: nat)
    requires k < |Shown(query, items)|
    ensures k < ShownLimit && k < |items|
    ensures Shown(query, items)[k] == Ranked(query, items)[k]
    ensures forall j :: 0 <= j < k && SymbolMatch(query, Shown(query, items)[k]) ==> SymbolMatch(query, Shown(query, items)[j])
  {
    RankedPartitioned(query, items);
  }

  // ---------------------------------------------------------------- navigation

  /** What a button handler does: nothing, a notice, or a full-page navigation. */
  datatype Action = Stay | Alert(message: string) | Navigate(href: string)

  const EnterSymbol := "Please enter a stock symbol"
  const EnterFirstSymbol := "Enter first stock symbol"

  /** The form's submit handler, as written: the trimmed input goes into the URL raw. */
  function Submit(input: string): (a: Action)
    ensures a.Alert? <==> Blank(JavaScript, input)
    ensures a.Alert? ==> a.message == EnterSymbol
    ensures a.Navigate? ==> a.href == "/result?symbol=" + Trim(JavaScript, input)
    ensures !a.Stay?
  {
    var symbol := Trim(JavaScript, input);
    if symbol == [] then Alert(EnterSymbol) else Navigate("/result?symbol=" + symbol)
  }

  /** The compare button, as written: `second` is the answer to the prompt (`None` when it
      was cancelled); it is neither trimmed nor encoded. */
  function Compare(input: string, second: Option<string>): (a: Action)
    ensures a.Alert? <==> Blank(JavaScript, input)
    ensures a.Alert? ==> a.message == EnterFirstSymbol
    ensures a.Stay? <==> !Blank(JavaScript, input) && (second.None? || second.value == "")
    ensures a.Navigate? ==> a.href == "/compare?A=" + Trim(JavaScript, input) + "&B=" + second.value
  {
    var symbol := Trim(JavaScript, input);
    if symbol == [] then Alert(EnterFirstSymbol)
    else if second.None? || second.value == "" then Stay
    else Navigate("/compare?A=" + symbol + "&B=" + second.value)
  }

  /** The submit handler with the symbol percent-encoded (`encodeURIComponent`). */
  function SubmitEncoded(input: string): (a: Action)
    ensures a.Alert? <==> Blank(JavaScript, input)
    ensures a.Navigate? ==> a.href == "/result?symbol=" + Encode(Trim(JavaScript, input))
    ensures !a.Stay?
  {
    var symbol := Trim(JavaScript, input);
    if symbol == [] then Alert(EnterSymbol) else Navigate("/result?symbol=" + Encode(symbol))
  }

  /** The compare button with both symbols percent-encoded. */
  function CompareEncoded(input: string, second: Option<string>): (a: Action)
    ensures a.Alert? <==> Blank(JavaScript, input)
    ensures a.Stay? <==> !Blank(JavaScript, input) && (second.None? || second.value == "")
    ensures a.Navigate? ==> a.href == "/compare?A=" + Encode(Trim(JavaScript, input)) + "&B=" + Encode(second.value)
  {
    var symbol := Trim(JavaScript, input);
    if symbol == [] then Alert(EnterFirstSymbol)
    else if second.None? || second.value == "" then Stay
    else Navigate("/compare?A=" + Encode(symbol) + "&B=" + Encode(second.value))
  }

  /** A value without `&`, `#`, controls and spaces is what the result page reads back from
      `/result?symbol=` followed by it. */
  lemma ResultUrlReadsBack(v: string)
    requires '&' !in v && '#' !in v && Visible(v)
    ensures Param("/result?symbol=" + v, "symbol") == Some(Decode(v))
  {
    ResultPrefixParts();
    ReadOnly("/result?symbol=", "/result", "symbol", v);
  }

  lemma ResultPrefixParts()
    ensures "/result?symbol=" == "/result" + "?" + "symbol" + "="
    ensures Plain("symbol") && '=' !in "symbol" && '?' !in "/result" && '#' !in "/result" && Visible("/result")
  {
  }

  /** Two values without `&`, `#`, controls and spaces are what the comparison page reads back
      as `A` and `B` from `/compare?A=a&B=b`. */
  lemma CompareUrlReadsBack(a: string, b: string)
    requires '&' !in a && '#' !in a && Visible(a)
    requires '&' !in b && '#' !in b && Visible(b)
    ensures Param("/compare?A=" + a + "&B=" + b, "A") == Some(Decode(a))
    ensures Param("/compare?A=" + a + "&B=" + b, "B") == Some(Decode(b))
  {
    ComparePrefixParts();
    ReadFirst("/compare?A=", "/compare", "A", a, "&B=", b);
    ReadSecond("/compare?A=", "/compare", "A", a, "&B=", "B", b);
  }

  lemma ComparePrefixParts()
    ensures "/compare?A=" == "/compare" + "?" + "A" + "=" && "&B=" == "&" + "B" + "="
    ensures '?' !in "/compare" && '#' !in "/compare" && Visible("/compare")
    ensures Plain("A") && '=' !in "A" && Plain("B") && '=' !in "B" && "A" != "B"
    ensures "&B="[0] == '&' && '#' !in "&B=" && Visible("&B=")
  {
  }

  /** The result page reads back exactly the submitted symbol, whatever it contains. */
  lemma SubmitEncodedReadsBack(input: string)
    requires !Blank(JavaScript, input)
    ensures Param(SubmitEncoded(input).href, "symbol") == Some(Trim(JavaScript, input))
  {
    var symbol := Trim(JavaScript, input);
    ResultUrlReadsBack(Encode(symbol));
    DecodeEncode(symbol);
  }

  /** The comparison page reads back exactly the two symbols, whatever they contain. */
  lemma CompareEncodedReadsBack(input: string, second: string)
    requires !Blank(JavaScript, input) && second != ""
    ensures Param(CompareEncoded(input, Some(second)).href, "A") == Some(Trim(JavaScript, input))
    ensures Param(CompareEncoded(input, Some(second)).href, "B") == Some(second)
  {
    var symbol := Trim(JavaScript, input);
    CompareUrlReadsBack(Encode(symbol), Encode(second));
    DecodeEncode(symbol);
    DecodeEncode(second);
  }

  /** As written, a symbol without `%`, `&`, `+`, `#`, controls and spaces is read back
      unchanged. */
  lemma SubmitPlainReadsBack(input: string)
    requires !Blank(JavaScript, input) && Plain(Trim(JavaScript, input))
    ensures Param(Submit(input).href, "symbol") == Some(Trim(JavaScript, input))
  {
    var symbol := Trim(JavaScript, input);
    ResultUrlReadsBack(symbol);
    DecodePlain(symbol);
  }

  /** As written, the two symbols reach the comparison page unchanged when neither holds
      `%`, `&`, `+`, `#`, a control or a space. */
  lemma ComparePlainReadsBack(input: string, second: string)
    requires !Blank(JavaScript, input) && second != ""
    requires Plain(Trim(JavaScript, input)) && Plain(second)
    ensures Param(Compare(input, Some(second)).href, "A") == Some(Trim(JavaScript, input))
    ensures Param(Compare(input, Some(second)).href, "B") == Some(second)
  {
    var symbol := Trim(JavaScript, input);
    CompareUrlReadsBack(symbol, second);
    DecodePlain(symbol);
    DecodePlain(second);
  }

  /** As written, a space the user leaves at the end of the prompt answer goes into the URL,
      and the browser drops it on navigation: the comparison page reads `B` without it. */
  lemma CompareDropsTrailingSpace(input: string, second: string)
    requires !Blank(JavaScript, input) && second != ""
    requires Plain(Trim(JavaScript, input)) && Plain(second)
    ensures Compare(input, Some(second + " ")).href == Compare(input, Some(second)).href + " "
    ensures Param(Compare(input, Some(second + " ")).href, "B") == Some(second)
  {
    var symbol := Trim(JavaScript, input);
    var lead := "/compare?A=" + symbol + "&B=";
    var href := lead + second;
    assert Compare(input, Some(second + " ")).href == lead + (second + " ");
    Assoc(lead, second, " ");
    ComparePrefixParts();
    assert Visible("/compare?A=") by { assert "/compare?A=" == "/compare" + "?A="; VisibleJoin("/compare", "?A="); }
    VisibleJoin("/compare?A=", symbol);
    VisibleJoin("/compare?A=" + symbol, "&B=");
    VisibleJoin(lead, second);
    ParamIgnoresTrailingSpace(href, "B");
    ComparePlainReadsBack(input, second);
  }

  /** As written, everything from the first `&` of a symbol on is lost: the unencoded `&`
      starts a second parameter. */
  lemma SubmitCutsAtAmpersand(head: string, tail: string)
    requires head != [] && !IsSpace(JavaScript, head[0]) && Plain(head)
    requires tail != [] && !IsSpace(JavaScript, tail[|tail| - 1]) && '#' !in tail && Visible(tail)
    ensures Submit(head + "&" + tail) == Navigate("/result?symbol=" + head + "&" + tail)
    ensures Param(Submit(head + "&" + tail).href, "symbol") == Some(head)
  {
    var input := head + "&" + tail;
    assert input[0] == head[0] && input[|input| - 1] == tail[|tail| - 1];
    assert TrimStart(JavaScript, input) == input;
    assert TrimEnd(JavaScript, input) == input;
    assert "/result?symbol=" + input == "/result?symbol=" + head + "&" + tail;
    ResultPrefixParts();
    assert "&"[0] == '&' && '#' !in "&" && Visible("&");
    ReadFirst("/result?symbol=", "/result", "symbol", head, "&", tail);
    DecodePlain(head);
  }

  /** The ticker "M&M.NS" reaches the result page as "M". */
  lemma SubmitLosesAmpersand()
    ensures Param(Submit("M&M.NS").href, "symbol") == Some("M")
  {
    assert "M&M.NS" == "M" + "&" + "M.NS";
    SubmitCutsAtAmpersand("M", "M.NS");
  }

  // ---------------------------------------------------------------- the search request

  /** The autocomplete request corrected: the query percent-encoded. */
  function SearchUrlEncoded(query: string): (url: string)
    ensures Param(url, "q") == Some(query)
  {
    var v := Encode(query);
    ReadOnly("/search?q=", "/search", "q", v);
    DecodeEncode(query);
    "/search?q=" + v
  }

  /** As written, a query `head&tail` reaches the service as `head`: the unencoded `&`
      starts a second argument. */
  lemma SearchCutsAtAmpersand(head: string, tail: string)
    requires Plain(head) && '#' !in tail && Visible(tail)
    ensures SearchUrl(head + "&" + tail) == "/search?q=" + head + "&" + tail
    ensures Param(SearchUrl(head + "&" + tail), "q") == Some(head)
  {
    assert SearchUrl(head + "&" + tail) == "/search?q=" + head + "&" + tail;
    ReadFirst("/search?q=", "/search", "q", head, "&", tail);
    DecodePlain(head);
  }

  /** Typing "M&M" searches the service for "M". */
  lemma SearchLosesAmpersand()
    ensures Param(SearchUrl("M&M"), "q") == Some("M")
  {
    assert "M&M" == "M" + "&" + "M";
    SearchCutsAtAmpersand("M", "M");
  }
}
