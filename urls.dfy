/** Page URLs: how a page reads a query parameter back (`new URLSearchParams(location.search)
    .get(name)`) after the browser's URL parser has taken in the navigated or fetched URL, and a
    percent-encoding of parameter values under which that read returns the value written. */
module Urls {
  import opened Wrappers

  /** The first position of `c` in `s`, or `|s|` when there is none (`indexOf`, with `-1`
      replaced by the length). */
  function IndexOf(s: string, c: char): (i: nat)
    ensures i <= |s|
    ensures i < |s| ==> s[i] == c
    ensures forall k :: 0 <= k < i ==> s[k] != c
  {
    if s == [] then 0 else if s[0] == c then 0 else 1 + IndexOf(s[1..], c)
  }

  /** The first `c` of `a + b` is found in `b` when `a` has none. */
  lemma {:induction false} IndexOfAfter(a: string, b: string, c: char)
    requires c !in a
    ensures IndexOf(a + b, c) == |a| + IndexOf(b, c)
  {
    if a != [] {
      assert a[0] != c && c !in a[1..];
      IndexOfAfter(a[1..], b, c);
      assert (a + b)[0] == a[0] && (a + b)[1..] == a[1..] + b;
    } else {
      assert a + b == b;
    }
  }

  /** JavaScript's `s.split(c)`: the pieces between the occurrences of `c`. */
  function Split(s: string, c: char): (pieces: seq<string>)
    ensures |pieces| >= 1
    decreases |s|
  {
    var i := IndexOf(s, c);
    if i == |s| then [s] else [s[..i]] + Split(s[i + 1..], c)
  }

  // ---------------------------------------------------------------- the URL parser

  /** A C0 control or a space: the URL parser strips these from both ends of a URL. */
  predicate Stray(c: char)
  {
    c <= ' '
  }

  /** Tab, line feed and carriage return: the URL parser removes these everywhere. */
  predicate TabOrNewline(c: char)
  {
    c == '\t' || c == '\n' || c == '\r'
  }

  /** No character of `s` is a C0 control or a space. */
  predicate Visible(s: string)
  {
    forall k :: 0 <= k < |s| ==> !Stray(s[k])
  }

  function StripLeading(s: string): (r: string)
    ensures r != [] ==> !Stray(r[0])
  {
    if s != [] && Stray(s[0]) then StripLeading(s[1..]) else s
  }

  function StripTrailing(s: string): (r: string)
    ensures r != [] ==> !Stray(r[|r| - 1])
  {
    if s != [] && Stray(s[|s| - 1]) then StripTrailing(s[..|s| - 1]) else s
  }

  function DropTabsAndNewlines(s: string): (r: string)
    ensures forall k :: 0 <= k < |r| ==> !TabOrNewline(r[k])
  {
    if s == [] then []
    else (if TabOrNewline(s[0]) then [] else [s[0]]) + DropTabsAndNewlines(s[1..])
  }

  /** The URL the browser goes to when a page assigns `href` to `location.href` (or passes
      it to `fetch`): leading and trailing C0 controls and spaces are stripped, and every tab,
      line feed and carriage return is removed. */
  function Navigated(href: string): string
  {
    DropTabsAndNewlines(StripTrailing(StripLeading(href)))
  }

  lemma {:induction false} DropNothing(s: string)
    requires Visible(s)
    ensures DropTabsAndNewlines(s) == s
  {
    if s != [] {
      assert !Stray(s[0]);
      assert Visible(s[1..]) by {
        forall k | 0 <= k < |s[1..]| ensures !Stray(s[1..][k]) {
          assert s[1..][k] == s[k + 1];
        }
      }
      DropNothing(s[1..]);
      assert s == [s[0]] + s[1..];
    }
  }

  /** The URL parser leaves a URL without controls and spaces as it is. */
  lemma NavigatedVisible(s: string)
    requires Visible(s)
    ensures Navigated(s) == s
  {
    DropNothing(s);
  }

  /** A URL that ends in a space reaches the page without it. */
  lemma NavigatedDropsTrailingSpace(s: string)
    requires s != [] && Visible(s)
    ensures Navigated(s + " ") == s
  {
    var t := s + " ";
    assert t[0] == s[0] && !Stray(t[0]);
    assert StripLeading(t) == t;
    assert t[..|t| - 1] == s;
    assert StripTrailing(t) == StripTrailing(s) == s;
    DropNothing(s);
  }

  /** Joining strings without controls and spaces gives one without them. */
  lemma VisibleJoin(a: string, b: string)
    requires Visible(a) && Visible(b)
    ensures Visible(a + b)
  {
    forall k | 0 <= k < |a + b| ensures !Stray((a + b)[k]) {
      if k < |a| {
        assert (a + b)[k] == a[k];
      } else {
        assert (a + b)[k] == b[k - |a|];
      }
    }
  }

  // ---------------------------------------------------------------- the reader

  /** `location.search` without its `?`: the fragment (from the first `#`) is cut off, and
      the query is what follows the first `?`. */
  function QueryOf(href: string): string
  {
    var url := href[..IndexOf(href, '#')];
    var q := IndexOf(url, '?');
    if q == |url| then "" else url[q + 1..]
  }

  /** The value of a hexadecimal digit of either case. */
  function HexValue(c: char): Option<nat>
  {
    if '0' <= c <= '9' then Some(c as int - '0' as int)
    else if 'a' <= c <= 'f' then Some(c as int - 'a' as int + 10)
    else if 'A' <= c <= 'F' then Some(c as int - 'A' as int + 10)
    else None
  }

  /** Form-decoding of a name or value: `+` is a space and `%XY` is the character with code
      XY; a `%` not followed by two hexadecimal digits stays as it is. */
  function Decode(s: string): string
    decreases |s|
  {
    if s == [] then []
    else if s[0] == '+' then [' '] + Decode(s[1..])
    else if s[0] == '%' && |s| >= 3 && HexValue(s[1]).Some? && HexValue(s[2]).Some? then
      [(HexValue(s[1]).value * 16 + HexValue(s[2]).value) as char] + Decode(s[3..])
    else [s[0]] + Decode(s[1..])
  }

  /** The name of a `name=value` piece: the text before the first `=`. */
  function NameOf(piece: string): string
  {
    piece[..IndexOf(piece, '=')]
  }

  /** The value of a `name=value` piece: the text after the first `=`, empty when none. */
  function ValueOf(piece: string): string
  {
    var i := IndexOf(piece, '=');
    if i == |piece| then "" else piece[i + 1..]
  }

  /** The decoded value of the first non-empty piece whose decoded name is `name`. */
  function Lookup(pieces: seq<string>, name: string): Option<string>
  {
    if pieces == [] then None
    else if pieces[0] != "" && Decode(NameOf(pieces[0])) == name then Some(Decode(ValueOf(pieces[0])))
    else Lookup(pieces[1..], name)
  }

  /** `new URLSearchParams(location.search).get(name)` on the page reached through `href`. */
  function Param(href: string, name: string): Option<string>
  {
    Lookup(Split(QueryOf(Navigated(href)), '&'), name)
  }

  /** A space at the end of a URL makes no difference to what the page reads. */
  lemma ParamIgnoresTrailingSpace(s: string, name: string)
    requires s != [] && Visible(s)
    ensures Param(s + " ", name) == Param(s, name)
  {
    NavigatedDropsTrailingSpace(s);
    NavigatedVisible(s);
  }

  // ---------------------------------------------------------------- encoding

  /** The characters the reader above treats specially inside a value. */
  predicate Reserved(c: char)
  {
    c == '%' || c == '&' || c == '+' || c == '#'
  }

  /** A string that navigation and the reader pass through unchanged: no reserved
      character, no control and no space in it. */
  predicate Plain(s: string)
  {
    '%' !in s && '&' !in s && '+' !in s && '#' !in s && Visible(s)
  }

  /** The characters the corrected builders escape: the reserved ones, the controls and the
      space. */
  predicate Escaped(c: char)
  {
    Reserved(c) || Stray(c)
  }

  function HexDigit(n: nat): (c: char)
    requires n < 16
    ensures HexValue(c) == Some(n)
    ensures '0' <= c <= '9' || 'A' <= c <= 'F'
  {
    "0123456789ABCDEF"[n]
  }

  /** Percent-encoding of one character: the reserved characters, the controls and the space
      become `%XY`, as `encodeURIComponent` writes them; every other character stays. */
  function EncodeChar(c: char): (e: string)
    ensures '&' !in e && '#' !in e && '+' !in e && Visible(e)
  {
    if Escaped(c) then ['%', HexDigit(c as int / 16), HexDigit(c as int % 16)] else [c]
  }

  /** The encoded value holds no separator, no fragment mark, no `+`, and nothing the URL
      parser would strip or drop. */
  function Encode(s: string): (e: string)
    ensures '&' !in e && '#' !in e && '+' !in e && Visible(e)
  {
    if s == [] then []
    else
      var head, rest := EncodeChar(s[0]), Encode(s[1..]);
      VisibleJoin(head, rest);
      head + rest
  }

  /** Decoding undoes encoding, for every string. */
  lemma {:induction false} DecodeEncode(s: string)
    ensures Decode(Encode(s)) == s
  {
    if s != [] {
      assert Encode(s) == EncodeChar(s[0]) + Encode(s[1..]);
      DecodeEncodedHead(s[0], Encode(s[1..]));
      DecodeEncode(s[1..]);
      assert s == [s[0]] + s[1..];
    }
  }

  /** Decoding reads an encoded character back as that character and goes on after it. */
  lemma DecodeEncodedHead(c: char, rest: string)
    ensures Decode(EncodeChar(c) + rest) == [c] + Decode(rest)
  {
    var e := EncodeChar(c) + rest;
    if Escaped(c) {
      var hi, lo := c as int / 16, c as int % 16;
      assert e[0] == '%' && e[1] == HexDigit(hi) && e[2] == HexDigit(lo) && e[3..] == rest;
      assert (hi * 16 + lo) as char == c;
    } else {
      assert e[0] == c && e[1..] == rest;
    }
  }

  /** Encoding leaves a plain string as it is. */
  lemma {:induction false} EncodePlain(s: string)
    requires Plain(s)
    ensures Encode(s) == s
  {
    if s != [] {
      assert s == [s[0]] + s[1..];
      assert !Stray(s[0]);
      assert Plain(s[1..]) by {
        forall k | 0 <= k < |s[1..]| ensures !Stray(s[1..][k]) {
          assert s[1..][k] == s[k + 1];
        }
      }
      EncodePlain(s[1..]);
    }
  }

  /** Decoding leaves a plain string as it is. */
  lemma {:induction false} DecodePlain(s: string)
    requires Plain(s)
    ensures Decode(s) == s
  {
    if s != [] {
      assert s == [s[0]] + s[1..];
      assert Plain(s[1..]) by {
        forall k | 0 <= k < |s[1..]| ensures !Stray(s[1..][k]) {
          assert s[1..][k] == s[k + 1];
        }
      }
      DecodePlain(s[1..]);
    }
  }

  // ---------------------------------------------------------------- reading back

  /** The query of a URL without a fragment is what follows its first `?`. */
  lemma QueryAfterMark(path: string, query: string)
    requires '?' !in path && '#' !in path && '#' !in query
    ensures QueryOf(path + "?" + query) == query
  {
    var href := path + "?" + query;
    assert '#' !in href;
    assert href[..IndexOf(href, '#')] == href;
    IndexOfAfter(path, "?" + query, '?');
    assert path + ("?" + query) == href;
    assert href[|path| + 1..] == query;
  }

  /** A piece without `&` is the first piece of the split. */
  lemma SplitFirst(piece: string, rest: string)
    requires '&' !in piece
    ensures Split(piece, '&') == [piece]
    ensures Split(piece + "&" + rest, '&') == [piece] + Split(rest, '&')
  {
    IndexOfAfter(piece, [], '&');
    assert piece + [] == piece;
    var s := piece + "&" + rest;
    IndexOfAfter(piece, "&" + rest, '&');
    assert piece + ("&" + rest) == s;
    assert s[..|piece|] == piece;
    assert s[|piece| + 1..] == rest;
  }

  /** The name and the value of `name=value` when the name has no `=`. */
  lemma PieceParts(name: string, value: string)
    requires '=' !in name
    ensures NameOf(name + "=" + value) == name
    ensures ValueOf(name + "=" + value) == value
  {
    var piece := name + "=" + value;
    IndexOfAfter(name, "=" + value, '=');
    assert name + ("=" + value) == piece;
    assert piece[..|name|] == name;
    assert piece[|name| + 1..] == value;
  }

  /** The parameter read from a query made of `name=value` pieces. */
  lemma LookupFirst(piece: string, name: string, value: string, more: seq<string>)
    requires name != "" && Plain(name) && '=' !in name && piece == name + "=" + value
    ensures Lookup([piece] + more, name) == Some(Decode(value))
  {
    PieceParts(name, value);
    DecodePlain(name);
    assert ([piece] + more)[0] == piece;
  }

  /** A `name=value` piece without controls and spaces, when the value has none. */
  lemma PieceVisible(name: string, value: string)
    requires Plain(name) && Visible(value)
    ensures Visible(name + "=" + value)
  {
    VisibleJoin(name, "=");
    VisibleJoin(name + "=", value);
  }

  /** Reading a parameter from `path?query` is reading it from the pieces of `query`, when
      neither holds a control or a space. */
  lemma ParamOfQuery(href: string, path: string, query: string, name: string)
    requires href == path + "?" + query
    requires '?' !in path && '#' !in path && '#' !in query
    requires Visible(path) && Visible(query)
    ensures Param(href, name) == Lookup(Split(query, '&'), name)
  {
    VisibleJoin(path, "?");
    VisibleJoin(path + "?", query);
    NavigatedVisible(href);
    QueryAfterMark(path, query);
  }

  /** The only piece `name=value` of a query gives the parameter `name`. */
  lemma ReadAlone(href: string, path: string, name: string, value: string)
    requires href == path + "?" + (name + "=" + value)
    requires '?' !in path && '#' !in path && Visible(path)
    requires name != "" && Plain(name) && '=' !in name
    requires '&' !in value && '#' !in value && Visible(value)
    ensures Param(href, name) == Some(Decode(value))
  {
    var piece := name + "=" + value;
    assert '&' !in piece && '#' !in piece;
    PieceVisible(name, value);
    ParamOfQuery(href, path, piece, name);
    SplitFirst(piece, "");
    LookupFirst(piece, name, value, []);
    assert [piece] + [] == [piece];
  }

  /** The first piece `name=value` of a query `name=value&more` gives the parameter `name`. */
  lemma ReadHead(href: string, path: string, name: string, value: string, more: string)
    requires href == path + "?" + (name + "=" + value + "&" + more)
    requires '?' !in path && '#' !in path && Visible(path)
    requires name != "" && Plain(name) && '=' !in name
    requires '&' !in value && '#' !in value && '#' !in more && Visible(value) && Visible(more)
    ensures Param(href, name) == Some(Decode(value))
  {
    var piece := name + "=" + value;
    assert '&' !in piece && '#' !in piece;
    PieceVisible(name, value);
    VisibleJoin(piece, "&");
    VisibleJoin(piece + "&", more);
    ParamOfQuery(href, path, piece + "&" + more, name);
    SplitFirst(piece, more);
    LookupFirst(piece, name, value, Split(more, '&'));
  }

  /** Concatenation regrouped. */
  lemma Assoc<T>(a: seq<T>, b: seq<T>, c: seq<T>)
    ensures a + (b + c) == a + b + c
  {
  }

  /** `path?name=` followed by a value is `path?` followed by the piece `name=value`. */
  lemma PrefixThenValue(prefix: string, path: string, name: string, value: string)
    requires prefix == path + "?" + name + "="
    ensures prefix + value == path + "?" + (name + "=" + value)
  {
    var p := path + "?";
    Assoc(p + name, "=", value);
    Assoc(p, name, "=" + value);
    Assoc(name, "=", value);
  }

  /** A value without `&`, `#`, controls and spaces is read back as the only parameter of
      `path?name=value`, where `prefix` is `path?name=`. */
  lemma ReadOnly(prefix: string, path: string, name: string, value: string)
    requires prefix == path + "?" + name + "="
    requires '?' !in path && '#' !in path && Visible(path)
    requires name != "" && Plain(name) && '=' !in name
    requires '&' !in value && '#' !in value && Visible(value)
    ensures Param(prefix + value, name) == Some(Decode(value))
  {
    PrefixThenValue(prefix, path, name, value);
    ReadAlone(prefix + value, path, name, value);
  }

  /** A value without `&`, `#`, controls and spaces is read back as the first parameter of
      `path?name=value&...`, where `prefix` is `path?name=` and `sep` starts with `&`. */
  lemma ReadFirst(prefix: string, path: string, name: string, value: string, sep: string, rest: string)
    requires prefix == path + "?" + name + "="
    requires '?' !in path && '#' !in path && Visible(path)
    requires name != "" && Plain(name) && '=' !in name
    requires '&' !in value && '#' !in value && Visible(value)
    requires sep != [] && sep[0] == '&' && '#' !in sep && '#' !in rest && Visible(sep) && Visible(rest)
    ensures Param(prefix + value + sep + rest, name) == Some(Decode(value))
  {
    var more := sep[1..] + rest;
    VisibleDropFirst(sep);
    VisibleJoin(sep[1..], rest);
    FirstThenRest(prefix, path, name, value, sep, rest);
    ReadHead(prefix + value + sep + rest, path, name, value, more);
  }

  /** `prefix + value + sep + rest`, regrouped as the path, the first piece and the pieces
      after the `&` that starts `sep`. */
  lemma FirstThenRest(prefix: string, path: string, name: string, value: string, sep: string, rest: string)
    requires prefix == path + "?" + name + "="
    requires sep != [] && sep[0] == '&'
    ensures prefix + value + sep + rest == path + "?" + (name + "=" + value + "&" + (sep[1..] + rest))
  {
    var s1, more := sep[1..], sep[1..] + rest;
    var p, n := path + "?", name + "=" + value;
    PrefixThenValue(prefix, path, name, value);
    assert sep == "&" + s1;
    Assoc("&", s1, rest);
    Assoc(p + n, sep, rest);
    Assoc(n, "&", more);
    Assoc(p, n, "&" + more);
  }

  /** Dropping the first character keeps a string visible. */
  lemma VisibleDropFirst(s: string)
    requires s != [] && Visible(s)
    ensures Visible(s[1..])
  {
    forall k | 0 <= k < |s[1..]| ensures !Stray(s[1..][k]) {
      assert s[1..][k] == s[k + 1];
    }
  }

  /** The second piece of a query gives the parameter `name` when the first has another name. */
  lemma ReadSecondPiece(href: string, path: string, first: string, value1: string, name: string, value2: string)
    requires href == path + "?" + (first + "=" + value1 + "&" + (name + "=" + value2))
    requires '?' !in path && '#' !in path && Visible(path)
    requires first != "" && Plain(first) && '=' !in first
    requires name != "" && Plain(name) && '=' !in name
    requires first != name
    requires '&' !in value1 && '#' !in value1 && '#' !in value2 && '&' !in value2
    requires Visible(value1) && Visible(value2)
    ensures Param(href, name) == Some(Decode(value2))
  {
    var piece1, piece2 := first + "=" + value1, name + "=" + value2;
    assert '&' !in piece1 && '#' !in piece1 && '&' !in piece2 && '#' !in piece2;
    PieceVisible(first, value1);
    PieceVisible(name, value2);
    VisibleJoin(piece1, "&");
    VisibleJoin(piece1 + "&", piece2);
    ParamOfQuery(href, path, piece1 + "&" + piece2, name);
    SplitFirst(piece1, piece2);
    SplitFirst(piece2, "");
    PieceParts(first, value1);
    DecodePlain(first);
    LookupFirst(piece2, name, value2, []);
    assert [piece2] + [] == [piece2];
    assert Lookup([piece1, piece2], name) == Lookup([piece2], name);
  }

  /** A value without `&`, `#`, controls and spaces is read back as the second parameter of
      `path?first=value1&name=value2`, where `prefix` is `path?first=` and `sep` is `&name=`. */
  lemma ReadSecond(prefix: string, path: string, first: string, value1: string,
                   sep: string, name: string, value2: string)
    requires prefix == path + "?" + first + "=" && sep == "&" + name + "="
    requires '?' !in path && '#' !in path && Visible(path)
    requires first != "" && Plain(first) && '=' !in first
    requires name != "" && Plain(name) && '=' !in name
    requires first != name
    requires '&' !in value1 && '#' !in value1 && '#' !in value2 && '&' !in value2
    requires Visible(value1) && Visible(value2)
    ensures Param(prefix + value1 + sep + value2, name) == Some(Decode(value2))
  {
    var p, f, m := path + "?", first + "=" + value1, name + "=" + value2;
    PrefixThenValue(prefix, path, first, value1);
    Assoc("&" + name, "=", value2);
    Assoc("&", name, "=" + value2);
    Assoc(name, "=", value2);
    assert sep + value2 == "&" + m;
    Assoc(p + f, sep, value2);
    Assoc(f, "&", m);
    Assoc(p, f, "&" + m);
    assert prefix + value1 + sep + value2 == p + (f + "&" + m);
    ReadSecondPiece(prefix + value1 + sep + value2, path, first, value1, name, value2);
  }
}
