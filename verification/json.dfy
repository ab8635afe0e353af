/**
  The JSON writer: `escape_json` and `JSON::write`.

  A JSON value holds four containers -- string pairs, named child objects,
  a list of strings and a list of child objects.  A value with list
  children is an array of objects, one with list values an array of
  strings, and anything else an object; mixing the kinds throws the integer
  10.  Strings are modelled as sequences of characters, one character per
  byte of the source's `std::string`.
*/
module JsonWriter {
  import opened Base

  // ---------------------------------------------------------------------
  // escape_json

  /** The characters `escape_json` rewrites: the double quote, the backslash
      and the control characters 0x00-0x1f.  Bytes 0x80 and above are
      negative as a signed `char`, fail the range test and pass through. */
  predicate NeedsEscape(c: char)
  {
    c == '"' || c == '\\' || c as int <= 0x1f
  }

  /** A lower-case hexadecimal digit, as `std::hex` prints it. */
  function HexDigit(d: nat): (c: char)
    requires d < 16
    ensures HexValue(c) == Some(d)
    ensures c == "0123456789abcdef"[d]
  {
    if d < 10 then (48 + d) as char else (87 + d) as char
  }

  /** The value of a hexadecimal digit of either case. */
  function HexValue(c: char): (r: Option<nat>)
    ensures r.Some? ==> r.value < 16
  {
    if '0' <= c <= '9' then Some(c as int - 48)
    else if 'a' <= c <= 'f' then Some(c as int - 87)
    else if 'A' <= c <= 'F' then Some(c as int - 55)
    else None
  }

  /** `std::hex << std::setw(4) << std::setfill('0')` for a byte value. */
  function Hex4(n: nat): (r: string)
    requires n < 256
    ensures |r| == 4 && r[0] == '0' && r[1] == '0'
    ensures HexValue(r[2]) == Some(n / 16) && HexValue(r[3]) == Some(n % 16)
    ensures r[2] == "0123456789abcdef"[n / 16] && r[3] == "0123456789abcdef"[n % 16]
  {
    ['0', '0', HexDigit(n / 16), HexDigit(n % 16)]
  }

  function EscapeChar(c: char): (r: string)
    ensures NeedsEscape(c) ==> |r| == 6 && r[0] == '\\' && r[1] == 'u'
    ensures NeedsEscape(c) ==> r[2..] == Hex4(c as int)
    ensures !NeedsEscape(c) ==> r == [c]
  {
    if NeedsEscape(c) then "\\u" + Hex4(c as int) else [c]
  }

  /** How many characters of `s` are rewritten. */
  function EscapedCount(s: string): nat
  {
    if |s| == 0 then 0 else (if NeedsEscape(s[0]) then 1 else 0) + EscapedCount(s[1..])
  }

  /** `escape_json`: every quote, backslash and control character becomes a
      six-character `\u00XX` escape; everything else is copied. */
  function Escape(s: string): (r: string)
    ensures |r| == |s| + 5 * EscapedCount(s)
    ensures EscapedCount(s) == 0 ==> r == s
  {
    if |s| == 0 then [] else EscapeChar(s[0]) + Escape(s[1..])
  }

  /** The escaped text holds no raw quote or control character, so it can
      sit between the quotes the writer puts around it. */
  lemma {:induction false} EscapeIsQuotable(s: string)
    ensures forall i :: 0 <= i < |Escape(s)| ==> Escape(s)[i] != '"' && Escape(s)[i] as int > 0x1f
  {
    if |s| > 0 {
      EscapeIsQuotable(s[1..]);
      var head := EscapeChar(s[0]);
      EscapeCharQuotable(s[0]);
      assert Escape(s) == head + Escape(s[1..]);
      forall i | 0 <= i < |Escape(s)|
        ensures Escape(s)[i] != '"' && Escape(s)[i] as int > 0x1f
      {
        if i >= |head| {
          assert Escape(s)[i] == Escape(s[1..])[i - |head|];
        }
      }
    }
  }

  /** The text written for one character holds no raw quote or control
      character. */
  lemma EscapeCharQuotable(c: char)
    ensures forall i :: 0 <= i < |EscapeChar(c)| ==> EscapeChar(c)[i] != '"' && EscapeChar(c)[i] as int > 0x1f
  {
    var r := EscapeChar(c);
    if NeedsEscape(c) {
      var h := Hex4(c as int);
      assert r == "\\u" + h;
    }
  }

  /** Reads back a string body produced by a JSON writer: `\uXXXX` escapes
      below the surrogate range are decoded, a raw quote or control
      character or any other use of the backslash is rejected. */
  function Unescape(t: string): (r: Option<string>)
    decreases |t|
  {
    if |t| == 0 then Some([])
    else if t[0] == '\\' then
      if |t| >= 6 && t[1] == 'u'
         && HexValue(t[2]).Some? && HexValue(t[3]).Some?
         && HexValue(t[4]).Some? && HexValue(t[5]).Some?
      then
        var v := 4096 * HexValue(t[2]).value + 256 * HexValue(t[3]).value
                 + 16 * HexValue(t[4]).value + HexValue(t[5]).value;
        if v < 0xD800 then
          match Unescape(t[6..])
          case Some(rest) => Some([v as char] + rest)
          case None => None
        else None
      else None
    else if t[0] == '"' || t[0] as int <= 0x1f then None
    else
      match Unescape(t[1..])
      case Some(rest) => Some([t[0]] + rest)
      case None => None
  }

  lemma UnescapeChar(c: char, rest: string)
    requires Unescape(rest).Some?
    ensures Unescape(EscapeChar(c) + rest) == Some([c] + Unescape(rest).value)
  {
    var t := EscapeChar(c) + rest;
    if NeedsEscape(c) {
      assert t[6..] == rest;
      var n := c as int;
      var h := Hex4(n);
      assert t[2..6] == h;
      assert HexValue(t[2]) == Some(0) && HexValue(t[3]) == Some(0);
      assert HexValue(t[4]) == Some(n / 16) && HexValue(t[5]) == Some(n % 16);
      assert 16 * (n / 16) + n % 16 == n;
    } else {
      assert t[1..] == rest;
    }
  }

  /** `escape_json` loses nothing: its output decodes back to its input. */
  lemma {:induction false} EscapeRoundTrip(s: string)
    ensures Unescape(Escape(s)) == Some(s)
  {
    if |s| > 0 {
      EscapeRoundTrip(s[1..]);
      UnescapeChar(s[0], Escape(s[1..]));
      assert [s[0]] + s[1..] == s;
    }
  }

  /** Hence distinct strings have distinct escapes. */
  lemma EscapeInjective(s: string, t: string)
    requires Escape(s) == Escape(t)
    ensures s == t
  {
    EscapeRoundTrip(s);
    EscapeRoundTrip(t);
  }

  // ---------------------------------------------------------------------
  // JSON::write

  /** A JSON value: string pairs and named children (written as an object),
      a list of strings, a list of child values. */
  datatype Json = Json(
    values: seq<(string, string)>,
    children: seq<(string, Json)>,
    listvalues: seq<string>,
    listchildren: seq<Json>)

  const ThrownCode: int := 10

  /** The values `write` accepts without throwing: a value with list
      children holds nothing else, one with list values holds no pairs or
      named children, and every nested value it writes is accepted too. */
  predicate Valid(v: Json)
  {
    if |v.listchildren| > 0 then
      && |v.listvalues| == 0 && |v.values| == 0 && |v.children| == 0
      && forall i :: 0 <= i < |v.listchildren| ==> Valid(v.listchildren[i])
    else if |v.listvalues| > 0 then
      |v.values| == 0 && |v.children| == 0
    else
      forall i :: 0 <= i < |v.children| ==> Valid(v.children[i].1)
  }

  /** The first n texts of xs, comma-separated. */
  function JoinFirst(xs: seq<string>, n: nat): string
    requires n <= |xs|
  {
    if n == 0 then ""
    else if n == 1 then xs[0]
    else JoinFirst(xs, n - 1) + "," + xs[n - 1]
  }

  /** Comma-separated concatenation. */
  function Join(xs: seq<string>): string
  {
    JoinFirst(xs, |xs|)
  }

  function Quote(s: string): string
  {
    "\"" + Escape(s) + "\""
  }

  function PairText(p: (string, string)): string
  {
    Quote(p.0) + " : " + Quote(p.1)
  }

  /** The quoted, escaped list values. */
  function StringItems(xs: seq<string>): seq<string>
  {
    seq(|xs|, i requires 0 <= i < |xs| => Quote(xs[i]))
  }

  /** The `"key" : "value"` members of an object. */
  function PairItems(ps: seq<(string, string)>): seq<string>
  {
    seq(|ps|, i requires 0 <= i < |ps| => PairText(ps[i]))
  }

  /** The texts of the list children. */
  function ArrayItems(v: Json): seq<string>
    decreases v, 0
  {
    seq(|v.listchildren|, i requires 0 <= i < |v.listchildren| =>
          if Valid(v.listchildren[i]) then Render(v.listchildren[i]) else "")
  }

  /** The `"key" : <child>` members of an object. */
  function NamedItems(v: Json): seq<string>
    decreases v, 0
  {
    seq(|v.children|, i requires 0 <= i < |v.children| =>
          if Valid(v.children[i].1) then Quote(v.children[i].0) + " : " + Render(v.children[i].1) else "")
  }

  /** The text the writer produces for an accepted value, by structure:
      arrays and objects are their members' texts joined with commas. */
  function Render(v: Json): string
    requires Valid(v)
    decreases v, 1
  {
    if |v.listchildren| > 0 then "[" + Join(ArrayItems(v)) + "]"
    else if |v.listvalues| > 0 then "[" + Join(StringItems(v.listvalues)) + "]"
    else "{" + Join(PairItems(v.values) + NamedItems(v)) + "}"
  }

  /** `JSON::write`: the text of `v`, or the thrown code 10 when `v` mixes
      kinds anywhere.  The source streams its output and raises mid-way;
      the text already written before a throw is not modelled. */
  method Write(v: Json) returns (r: Result<string, int>)
    ensures r.Success? <==> Valid(v)
    ensures r.Success? ==> r.value == Render(v)
    ensures r.Failure? ==> r.error == ThrownCode
    decreases v, 2
  {
    if |v.listchildren| > 0 {
      if |v.listvalues| > 0 || |v.values| > 0 || |v.children| > 0 {
        return Failure(ThrownCode);
      }
      var texts := WriteAll(v);
      if texts.Failure? {
        return Failure(ThrownCode);
      }
      var body := WriteSeparated(texts.value);
      r := Success("[" + body + "]");
    } else if |v.listvalues| > 0 {
      if |v.values| > 0 || |v.children| > 0 {
        return Failure(ThrownCode);
      }
      var body := WriteSeparated(StringItems(v.listvalues));
      r := Success("[" + body + "]");
    } else {
      var named := WriteNamed(v);
      if named.Failure? {
        return Failure(ThrownCode);
      }
      var body := WriteSeparated(PairItems(v.values) + named.value);
      r := Success("{" + body + "}");
    }
  }

  /** The `bool first` loop shared by every branch of `write`: a comma
      before each member but the first. */
  method WriteSeparated(items: seq<string>) returns (out: string)
    ensures out == Join(items)
  {
    out := "";
    var first := true;
    var i := 0;
    while i < |items|
      invariant 0 <= i <= |items|
      invariant first <==> i == 0
      invariant out == JoinFirst(items, i)
    {
      if !first {
        out := out + ",";
      }
      out := out + items[i];
      first := false;
      i := i + 1;
    }
  }

  /** The texts of the list children, in order; the first child that
      throws ends the walk. */
  method WriteAll(v: Json) returns (r: Result<seq<string>, int>)
    requires |v.listchildren| > 0
    requires |v.listvalues| == 0 && |v.values| == 0 && |v.children| == 0
    ensures r.Success? <==> Valid(v)
    ensures r.Success? ==> r.value == ArrayItems(v)
    ensures r.Failure? ==> r.error == ThrownCode
    decreases v, 1
  {
    var texts: seq<string> := [];
    var i := 0;
    while i < |v.listchildren|
      invariant 0 <= i <= |v.listchildren|
      invariant |texts| == i
      invariant forall k :: 0 <= k < i ==> Valid(v.listchildren[k]) && texts[k] == ArrayItems(v)[k]
    {
      var w := Write(v.listchildren[i]);
      if w.Failure? {
        return Failure(ThrownCode);
      }
      texts := texts + [w.value];
      i := i + 1;
    }
    return Success(texts);
  }

  /** The `"key" : <child>` texts of the named children, in order; the
      first child that throws ends the walk. */
  method WriteNamed(v: Json) returns (r: Result<seq<string>, int>)
    requires |v.listchildren| == 0 && |v.listvalues| == 0
    ensures r.Success? <==> Valid(v)
    ensures r.Success? ==> r.value == NamedItems(v)
    ensures r.Failure? ==> r.error == ThrownCode
    decreases v, 1
  {
    var texts: seq<string> := [];
    var i := 0;
    while i < |v.children|
      invariant 0 <= i <= |v.children|
      invariant |texts| == i
      invariant forall k :: 0 <= k < i ==> Valid(v.children[k].1) && texts[k] == NamedItems(v)[k]
    {
      var w := Write(v.children[i].1);
      if w.Failure? {
        return Failure(ThrownCode);
      }
      texts := texts + [Quote(v.children[i].0) + " : " + w.value];
      i := i + 1;
    }
    return Success(texts);
  }

  /** An empty value is written as an empty object. */
  lemma EmptyIsObject()
    ensures Valid(Json([], [], [], [])) && Render(Json([], [], [], [])) == "{}"
  {
  }

  /** A value holding one pair is the object `{"key" : "value"}`, key and
      value escaped and quoted. */
  lemma PairObject(k: string, v: string)
    ensures Valid(Json([(k, v)], [], [], []))
    ensures Render(Json([(k, v)], [], [], [])) == "{" + Quote(k) + " : " + Quote(v) + "}"
  {
    var j := Json([(k, v)], [], [], []);
    assert |NamedItems(j)| == 0;
    assert PairItems(j.values) + NamedItems(j) == [PairText((k, v))];
  }

  /** A value holding one list value is the array `["value"]`, the value
      escaped and quoted. */
  lemma ListSingle(x: string)
    ensures Valid(Json([], [], [x], []))
    ensures Render(Json([], [], [x], [])) == "[" + Quote(x) + "]"
  {
    assert StringItems([x]) == [Quote(x)];
  }

  /** JoinFirst reads only the first n texts. */
  lemma {:induction false} JoinFirstPrefix(xs: seq<string>, ys: seq<string>, n: nat)
    requires n <= |xs| && n <= |ys| && xs[..n] == ys[..n]
    ensures JoinFirst(xs, n) == JoinFirst(ys, n)
  {
    if n > 1 {
      assert xs[..n - 1] == ys[..n - 1] by {
        assert xs[..n - 1] == xs[..n][..n - 1] && ys[..n - 1] == ys[..n][..n - 1];
      }
      assert xs[n - 1] == xs[..n][n - 1] && ys[n - 1] == ys[..n][n - 1];
      JoinFirstPrefix(xs, ys, n - 1);
    } else if n == 1 {
      assert xs[0] == xs[..n][0] && ys[0] == ys[..n][0];
    }
  }

  /** One more list value: its quoted, escaped text goes after a comma just
      before the closing bracket, and the text before it is unchanged. */
  lemma ListAppend(xs: seq<string>, x: string)
    requires |xs| > 0
    ensures var r := Render(Json([], [], xs, []));
            && |r| >= 2 && r[0] == '[' && r[|r| - 1] == ']'
            && Render(Json([], [], xs + [x], [])) == r[..|r| - 1] + "," + Quote(x) + "]"
  {
    var items, items' := StringItems(xs), StringItems(xs + [x]);
    assert items'[..|xs|] == items[..|xs|];
    JoinFirstPrefix(items', items, |xs|);
    var body := JoinFirst(items, |xs|);
    assert items'[|xs|] == Quote(x);
    assert JoinFirst(items', |xs| + 1) == body + "," + Quote(x);
    var r := "[" + body + "]";
    assert r[..|r| - 1] == "[" + body;
  }

  /** The pair and list forms on concrete text: a quote inside a key is
      written as `\u0022`. */
  lemma PairForm(k: string, v: string)
    requires k == "a\"" && v == "b"
    ensures Render(Json([(k, v)], [], [], [])) == "{\"a\\u0022\" : \"b\"}"
  {
    PairObject(k, v);
    QuotedKey(k);
    assert Quote(v) == "\"b\"";
    ObjectText(Quote(k), Quote(v));
  }

  lemma ObjectText(key: string, value: string)
    requires key == "\"a\\u0022\"" && value == "\"b\""
    ensures "{" + key + " : " + value + "}" == "{\"a\\u0022\" : \"b\"}"
  {
  }

  /** The quote character escapes to `\u0022`. */
  lemma QuoteEscape()
    ensures EscapeChar('"') == "\\u0022"
  {
    assert Hex4('"' as int) == "0022";
  }

  lemma QuotedKey(k: string)
    requires k == "a\""
    ensures Quote(k) == "\"a\\u0022\""
  {
    QuoteEscape();
    assert Escape(k[1..]) == EscapeChar('"') + Escape([]);
  }

  /** List values are written as a bracketed, comma-separated array. */
  lemma ListForm()
    ensures Render(Json([], [], ["x", "y"], [])) == "[\"x\",\"y\"]"
  {
    ListSingle("x");
    ListAppend(["x"], "y");
    assert Escape("x") == "x" && Escape("y") == "y";
    assert ["x"] + ["y"] == ["x", "y"];
  }
}
