/**
 * JSON text for a list of strings, as Jackson's ObjectMapper writes it
 * (writeValueAsString) and reads it back (readValue into List<String>).
 * The column samples are stored in this form by TableMetadataService and read back by
 * SchemaServiceImpl.attachColumnsToTables.
 */
module JsonStrings {
  import opened Wrappers
  import SeqUtil

  // ---------------------------------------------------------------- writing

  function HexDigit(d: nat): (c: char)
    requires d < 16
  {
    if d < 10 then ('0' as int + d) as char else ('A' as int + d - 10) as char
  }

  /** Jackson's escape for one character: quote, backslash and control characters. */
  function EscapeChar(c: char): string
  {
    if c == '"' then "\\\""
    else if c == '\\' then "\\\\"
    else if c == '\n' then "\\n"
    else if c == '\r' then "\\r"
    else if c == '\t' then "\\t"
    else if c == '\U{0008}' then "\\b"
    else if c == '\U{000C}' then "\\f"
    else if c < ' ' then "\\u00" + [HexDigit(c as int / 16), HexDigit(c as int % 16)]
    else [c]
  }

  function EscapeString(s: string): string
  {
    if |s| == 0 then "" else EscapeChar(s[0]) + EscapeString(s[1..])
  }

  function Quote(s: string): string
  {
    "\"" + EscapeString(s) + "\""
  }

  function EncodeItems(xs: seq<string>): string
  {
    if |xs| == 0 then ""
    else if |xs| == 1 then Quote(xs[0])
    else Quote(xs[0]) + "," + EncodeItems(xs[1..])
  }

  /** objectMapper.writeValueAsString(list): compact, no spaces. */
  function EncodeList(xs: seq<string>): (r: string)
    ensures |r| >= 2 && r[0] == '[' && r[|r| - 1] == ']'
  {
    "[" + EncodeItems(xs) + "]"
  }

  // ---------------------------------------------------------------- reading

  predicate IsJsonWs(c: char)
  {
    c == ' ' || c == '\t' || c == '\n' || c == '\r'
  }

  function SkipWs(s: string): (r: string)
    ensures |r| <= |s| && r == s[|s| - |r|..]
    ensures |r| > 0 ==> !IsJsonWs(r[0])
  {
    if |s| > 0 && IsJsonWs(s[0]) then SkipWs(s[1..]) else s
  }

  function HexValue(c: char): Option<nat>
  {
    if '0' <= c <= '9' then Some(c as int - '0' as int)
    else if 'a' <= c <= 'f' then Some(c as int - 'a' as int + 10)
    else if 'A' <= c <= 'F' then Some(c as int - 'A' as int + 10)
    else None
  }

  function Hex4(a: char, b: char, c: char, d: char): Option<nat>
  {
    var ha := HexValue(a);
    var hb := HexValue(b);
    var hc := HexValue(c);
    var hd := HexValue(d);
    if ha.None? || hb.None? || hc.None? || hd.None? then None
    else Some(((ha.value * 16 + hb.value) * 16 + hc.value) * 16 + hd.value)
  }

  function SimpleEscape(c: char): Option<char>
  {
    if c == '"' then Some('"')
    else if c == '\\' then Some('\\')
    else if c == '/' then Some('/')
    else if c == 'n' then Some('\n')
    else if c == 'r' then Some('\r')
    else if c == 't' then Some('\t')
    else if c == 'b' then Some('\U{0008}')
    else if c == 'f' then Some('\U{000C}')
    else None
  }

  function Prepend(c: char, p: Option<(string, string)>): Option<(string, string)>
  {
    if p.None? then None else Some(([c] + p.value.0, p.value.1))
  }

  /**
   * The body of a JSON string after its opening quote: the decoded value and the text after
   * the closing quote. Unescaped control characters and bad escapes are parse errors.
   */
  function ParseChars(s: string): (r: Option<(string, string)>)
    ensures r.Some? ==> |r.value.1| < |s|
    decreases |s|
  {
    if |s| == 0 then None
    else if s[0] == '"' then Some(("", s[1..]))
    else if s[0] == '\\' then
      if |s| < 2 then None
      else if s[1] == 'u' then
        if |s| < 6 then None
        else
          var v := Hex4(s[2], s[3], s[4], s[5]);
          if v.None? || (0xD800 <= v.value < 0xE000) then None
          else Prepend(v.value as char, ParseChars(s[6..]))
      else
        var e := SimpleEscape(s[1]);
        if e.None? then None else Prepend(e.value, ParseChars(s[2..]))
    else if s[0] < ' ' then None
    else Prepend(s[0], ParseChars(s[1..]))
  }

  /** One or more string items after "[", up to and including the closing "]". */
  function ParseItems(s: string): Option<seq<string>>
    decreases |s|, 1
  {
    if |s| == 0 || s[0] != '"' then None else ItemsAfter(s, ParseChars(s[1..]))
  }

  /** The items that follow one parsed string item `p`: a closing "]" or a "," and more items. */
  function ItemsAfter(s: string, p: Option<(string, string)>): Option<seq<string>>
    requires p.Some? ==> |p.value.1| < |s|
    decreases |s|, 0
  {
    if p.None? then None
    else
      var r := SkipWs(p.value.1);
      if |r| == 0 then None
      else if r[0] == ']' then Some([p.value.0])
      else if r[0] == ',' then
        var more := ParseItems(SkipWs(r[1..]));
        if more.None? then None else Some([p.value.0] + more.value)
      else None
  }

  /**
   * readValue(text, List<String>) for an array of strings; text after the closing bracket is
   * ignored, as Jackson does by default.
   */
  function DecodeList(s: string): Option<seq<string>>
  {
    var t := SkipWs(s);
    if |t| == 0 || t[0] != '[' then None
    else
      var u := SkipWs(t[1..]);
      if |u| > 0 && u[0] == ']' then Some([]) else ParseItems(u)
  }

  // ---------------------------------------------------------------- round trip

  lemma HexDigitValue(d: nat)
    requires d < 16
    ensures HexValue(HexDigit(d)) == Some(d)
  {
  }

  lemma {:induction false} EscapeCharRoundTrip(c: char, t: string)
    ensures ParseChars(EscapeChar(c) + t) == Prepend(c, ParseChars(t))
  {
    var s := EscapeChar(c) + t;
    if c == '"' || c == '\\' || c == '\n' || c == '\r' || c == '\t' || c == '\U{0008}' || c == '\U{000C}' {
      assert s[0] == '\\' && s[2..] == t;
    } else if c < ' ' {
      var hi, lo := c as int / 16, c as int % 16;
      HexDigitValue(hi);
      HexDigitValue(lo);
      assert s[0] == '\\' && s[1] == 'u' && s[2] == '0' && s[3] == '0';
      assert s[4] == HexDigit(hi) && s[5] == HexDigit(lo);
      assert Hex4(s[2], s[3], s[4], s[5]) == Some(c as int);
      assert s[6..] == t;
    } else {
      assert s[0] == c && s[1..] == t;
    }
  }

  lemma {:induction false} EscapeStringRoundTrip(x: string, rest: string)
    ensures ParseChars(EscapeString(x) + "\"" + rest) == Some((x, rest))
    decreases |x|
  {
    if |x| == 0 {
      assert EscapeString(x) + "\"" + rest == "\"" + rest;
    } else {
      var t := EscapeString(x[1..]) + "\"" + rest;
      assert EscapeString(x) + "\"" + rest == EscapeChar(x[0]) + t;
      EscapeCharRoundTrip(x[0], t);
      EscapeStringRoundTrip(x[1..], rest);
      assert [x[0]] + x[1..] == x;
    }
  }

  lemma ParseItemsLast(s: string, v: string, tail: string)
    requires |s| > 0 && s[0] == '"' && ParseChars(s[1..]) == Some((v, "]" + tail))
    ensures ParseItems(s) == Some([v])
  {
    ItemsAfterClose(s, v, tail);
    assert ParseItems(s) == ItemsAfter(s, ParseChars(s[1..]));
  }

  lemma ItemsAfterClose(s: string, v: string, tail: string)
    requires 1 + |tail| < |s|
    ensures ItemsAfter(s, Some((v, "]" + tail))) == Some([v])
  {
    var r := "]" + tail;
    assert SkipWs(r) == r;
  }

  lemma ParseItemsMore(s: string, v: string, next: string)
    requires |s| > 0 && s[0] == '"' && ParseChars(s[1..]) == Some((v, "," + next))
    requires |next| > 0 && next[0] == '"'
    ensures ParseItems(s) == (var m := ParseItems(next); if m.None? then None else Some([v] + m.value))
  {
    var r := "," + next;
    assert SkipWs(r) == r;
    assert r[1..] == next;
    assert SkipWs(next) == next;
  }

  /** The text after the first encoded item. */
  function AfterFirst(xs: seq<string>, tail: string): string
    requires |xs| >= 1
  {
    if |xs| == 1 then "]" + tail else "," + (EncodeItems(xs[1..]) + "]" + tail)
  }

  lemma EncodeItemsHead(xs: seq<string>, tail: string)
    requires |xs| >= 1
    ensures EncodeItems(xs) + "]" + tail == "\"" + (EscapeString(xs[0]) + "\"" + AfterFirst(xs, tail))
  {
    var e := EscapeString(xs[0]);
    var q := "\"";
    if |xs| == 1 {
      calc {
        EncodeItems(xs) + "]" + tail;
        (q + e + q) + "]" + tail;
        { Assoc3(q + e + q, "]", tail); }
        (q + e + q) + ("]" + tail);
        { Assoc4(q, e, q, "]" + tail); }
        q + (e + q + ("]" + tail));
      }
    } else {
      var more := EncodeItems(xs[1..]);
      calc {
        EncodeItems(xs) + "]" + tail;
        (q + e + q) + "," + more + "]" + tail;
        { Assoc5(q + e + q, ",", more, "]", tail); }
        (q + e + q) + ("," + (more + "]" + tail));
        { Assoc4(q, e, q, "," + (more + "]" + tail)); }
        q + (e + q + ("," + (more + "]" + tail)));
      }
    }
  }

  lemma Assoc3(a: string, b: string, c: string)
    ensures a + b + c == a + (b + c)
  {
  }

  lemma Assoc4(a: string, b: string, c: string, d: string)
    ensures a + b + c + d == a + (b + c + d)
  {
  }

  lemma Assoc5(a: string, b: string, c: string, d: string, e: string)
    ensures a + b + c + d + e == a + (b + (c + d + e))
  {
  }

  lemma EncodeItemsStartsWithQuote(xs: seq<string>, tail: string)
    requires |xs| >= 1
    ensures |EncodeItems(xs) + "]" + tail| > 0 && (EncodeItems(xs) + "]" + tail)[0] == '"'
  {
    EncodeItemsHead(xs, tail);
  }

  lemma HeadParts(xs: seq<string>, tail: string)
    requires |xs| >= 1
    ensures var s := EncodeItems(xs) + "]" + tail;
            |s| > 0 && s[0] == '"' && ParseChars(s[1..]) == Some((xs[0], AfterFirst(xs, tail)))
  {
    var s := EncodeItems(xs) + "]" + tail;
    var rest := EscapeString(xs[0]) + "\"" + AfterFirst(xs, tail);
    EncodeItemsHead(xs, tail);
    assert s == "\"" + rest;
    assert s[1..] == rest;
    EscapeStringRoundTrip(xs[0], AfterFirst(xs, tail));
  }

  lemma ItemsRoundTripOne(xs: seq<string>, tail: string)
    requires |xs| == 1
    ensures ParseItems(EncodeItems(xs) + "]" + tail) == Some(xs)
  {
    HeadParts(xs, tail);
    ParseItemsLast(EncodeItems(xs) + "]" + tail, xs[0], tail);
    assert xs == [xs[0]];
  }

  lemma ItemsRoundTripStep(xs: seq<string>, tail: string)
    requires |xs| >= 2
    requires ParseItems(EncodeItems(xs[1..]) + "]" + tail) == Some(xs[1..])
    ensures ParseItems(EncodeItems(xs) + "]" + tail) == Some(xs)
  {
    var s := EncodeItems(xs) + "]" + tail;
    var next := EncodeItems(xs[1..]) + "]" + tail;
    HeadParts(xs, tail);
    EncodeItemsStartsWithQuote(xs[1..], tail);
    ParseItemsMore(s, xs[0], next);
    SeqUtil.HeadTail(xs);
  }

  lemma {:induction false} ItemsRoundTrip(xs: seq<string>, tail: string)
    requires |xs| >= 1
    ensures ParseItems(EncodeItems(xs) + "]" + tail) == Some(xs)
    decreases |xs|
  {
    if |xs| == 1 {
      ItemsRoundTripOne(xs, tail);
    } else {
      ItemsRoundTrip(xs[1..], tail);
      ItemsRoundTripStep(xs, tail);
    }
  }

  lemma DecodeOpen(body: string)
    requires |body| > 0 && !IsJsonWs(body[0])
    ensures DecodeList("[" + body) == if body[0] == ']' then Some([]) else ParseItems(body)
  {
    var s := "[" + body;
    assert SkipWs(s) == s;
    assert s[1..] == body;
  }

  /** Reading back what was written gives the same list. */
  lemma DecodeEncode(xs: seq<string>)
    ensures DecodeList(EncodeList(xs)) == Some(xs)
  {
    var body := EncodeItems(xs) + "]";
    assert EncodeList(xs) == "[" + body;
    if |xs| == 0 {
      assert body == "]";
      DecodeOpen(body);
    } else {
      EncodeItemsStartsWithQuote(xs, "");
      assert body == EncodeItems(xs) + "]" + "";
      DecodeOpen(body);
      ItemsRoundTrip(xs, "");
    }
  }
}
