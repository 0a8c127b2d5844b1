/**
  `JSON.stringify` and `JSON.parse` on the values this model stores (null,
  strings and arrays of strings), as ECMAScript specifies them:
  QuoteJSONString escapes '"', '\\', the five short control escapes and every
  other character below U+0020 as a lowercase \u00xx escape; the parser
  accepts JSON white space (tab, line feed, carriage return, space) around
  tokens and the escapes of the JSON grammar, joining an escaped surrogate
  pair into the one character it stands for.
*/
module JsonText {
  import opened Js
  import Utf16Bytes

  // ---------------------------------------------------------------------
  // Serialisation
  // ---------------------------------------------------------------------

  function HexDigit(d: int): (c: char)
    requires 0 <= d < 16
  {
    if d < 10 then ('0' as int + d) as char else ('a' as int + d - 10) as char
  }

  predicate IsHexChar(c: char)
  {
    '0' <= c <= '9' || 'a' <= c <= 'f' || 'A' <= c <= 'F'
  }

  function HexValue(c: char): (d: int)
    requires IsHexChar(c)
    ensures 0 <= d < 16
  {
    if '0' <= c <= '9' then c as int - '0' as int
    else if 'a' <= c <= 'f' then c as int - 'a' as int + 10
    else c as int - 'A' as int + 10
  }

  /** The escape QuoteJSONString writes for one character. */
  function EscapeChar(c: char): string
  {
    if c == '"' then "\\\""
    else if c == '\\' then "\\\\"
    else if c as int == 0x08 then "\\b"
    else if c as int == 0x09 then "\\t"
    else if c as int == 0x0A then "\\n"
    else if c as int == 0x0C then "\\f"
    else if c as int == 0x0D then "\\r"
    else if c as int < 0x20 then "\\u00" + [HexDigit(c as int / 16), HexDigit(c as int % 16)]
    else [c]
  }

  function Escape(s: string): string
  {
    if s == [] then "" else EscapeChar(s[0]) + Escape(s[1..])
  }

  /** `JSON.stringify(s)` for a string. */
  function Quote(s: string): string
  {
    "\"" + Escape(s) + "\""
  }

  function QuoteAll(items: seq<string>): (r: seq<string>)
    ensures |r| == |items|
  {
    if items == [] then [] else [Quote(items[0])] + QuoteAll(items[1..])
  }

  /** `JSON.stringify(v)`; `undefined` has no JSON text (the call returns undefined). */
  function Stringify(v: Value): (r: Option<string>)
    ensures r.None? <==> v == Undefined
    ensures r.Some? ==> |r.value| >= 2
    ensures v.Str? ==> r.value[0] == '"' && r.value[|r.value| - 1] == '"'
    ensures v.StrList? ==> r.value[0] == '[' && r.value[|r.value| - 1] == ']'
  {
    match v
    case Undefined => None
    case Null => Some("null")
    case Str(s) => Some(Quote(s))
    case StrList(items) => Some("[" + Join(QuoteAll(items), ",") + "]")
  }

  // ---------------------------------------------------------------------
  // Parsing
  // ---------------------------------------------------------------------

  predicate IsJsonSpace(c: char)
  {
    c as int == 0x09 || c as int == 0x0A || c as int == 0x0D || c as int == 0x20
  }

  function SkipSpace(t: string): (r: string)
    ensures |r| <= |t|
  {
    if t != [] && IsJsonSpace(t[0]) then SkipSpace(t[1..]) else t
  }

  /** The character a simple escape `\e` stands for. */
  function SimpleEscape(e: char): Option<char>
  {
    if e == '"' then Some('"')
    else if e == '\\' then Some('\\')
    else if e == '/' then Some('/')
    else if e == 'b' then Some(8 as char)
    else if e == 'f' then Some(12 as char)
    else if e == 'n' then Some(10 as char)
    else if e == 'r' then Some(13 as char)
    else if e == 't' then Some(9 as char)
    else None
  }

  /** A `\uXXXX` escape at the head of `t`. */
  predicate IsUnitEscape(t: string)
  {
    |t| >= 6 && t[0] == '\\' && t[1] == 'u' && IsHexChar(t[2]) && IsHexChar(t[3]) && IsHexChar(t[4]) && IsHexChar(t[5])
  }

  /** The code unit that escape names. */
  function EscapedUnit(t: string): (n: Utf16Bytes.Unit)
    requires IsUnitEscape(t)
  {
    HexValue(t[2]) * 4096 + HexValue(t[3]) * 256 + HexValue(t[4]) * 16 + HexValue(t[5])
  }

  /** The body of a string literal up to its closing quote: the characters it
      denotes and the text after the quote. An escaped high surrogate followed
      by an escaped low surrogate is the one character the pair encodes; a
      lone surrogate escape is refused, since no string of this model holds one. */
  function ScanString(t: string): (r: Option<(string, string)>)
    ensures r.Some? ==> |r.value.1| < |t|
    decreases |t|
  {
    if t == [] then None
    else if t[0] == '"' then Some(([], t[1..]))
    else if t[0] as int < 0x20 then None
    else if t[0] == '\\' then
      if |t| < 2 then None
      else if t[1] == 'u' then
        if !IsUnitEscape(t) then None
        else
          var n := EscapedUnit(t);
          if Utf16Bytes.IsLowSurrogate(n) then None
          else if Utf16Bytes.IsHighSurrogate(n) then
            var low := t[6..];
            if IsUnitEscape(low) && Utf16Bytes.IsLowSurrogate(EscapedUnit(low)) then
              Prepend(Utf16Bytes.PairChar(n, EscapedUnit(low)), ScanString(low[6..]))
            else None
          else Prepend(n as char, ScanString(t[6..]))
      else
        match SimpleEscape(t[1])
        case None => None
        case Some(c) => Prepend(c, ScanString(t[2..]))
    else Prepend(t[0], ScanString(t[1..]))
  }

  function Prepend(c: char, r: Option<(string, string)>): (p: Option<(string, string)>)
    ensures p.Some? <==> r.Some?
    ensures p.Some? ==> p.value.1 == r.value.1
  {
    match r
    case None => None
    case Some((s, rest)) => Some(([c] + s, rest))
  }

  /** The elements of a non-empty array of strings, up to its closing bracket. */
  function ScanElements(t: string): (r: Option<(seq<string>, string)>)
    decreases |t|
  {
    if t == [] || t[0] != '"' then None
    else
      match ScanString(t[1..])
      case None => None
      case Some((s, rest)) =>
        var after := SkipSpace(rest);
        if after != [] && after[0] == ']' then Some(([s], after[1..]))
        else if after != [] && after[0] == ',' then
          match ScanElements(SkipSpace(after[1..]))
          case None => None
          case Some((more, tail)) => Some(([s] + more, tail))
        else None
  }

  /** `JSON.parse(text)` for texts denoting null, a string or an array of
      strings; None for every other text. */
  function Parse(text: string): (r: Option<Value>)
    ensures r != Some(Undefined)
    ensures SkipSpace(text) == [] ==> r.None?
  {
    var t := SkipSpace(text);
    if |t| >= 4 && t[..4] == "null" then
      if SkipSpace(t[4..]) == [] then Some(Null) else None
    else if t != [] && t[0] == '"' then
      match ScanString(t[1..])
      case None => None
      case Some((s, rest)) => if SkipSpace(rest) == [] then Some(Str(s)) else None
    else if t != [] && t[0] == '[' then
      var inner := SkipSpace(t[1..]);
      if inner != [] && inner[0] == ']' then
        if SkipSpace(inner[1..]) == [] then Some(StrList([])) else None
      else
        match ScanElements(inner)
        case None => None
        case Some((items, rest)) => if SkipSpace(rest) == [] then Some(StrList(items)) else None
    else None
  }

  // ---------------------------------------------------------------------
  // Round trip
  // ---------------------------------------------------------------------

  lemma SkipSpaceNone(t: string)
    requires t == [] || !IsJsonSpace(t[0])
    ensures SkipSpace(t) == t
  {
  }

  /** One escaped character scans back to itself. */
  lemma ScanEscapeChar(c: char, tail: string)
    ensures ScanString(EscapeChar(c) + tail) == Prepend(c, ScanString(tail))
  {
    if c as int < 0x20 && c as int != 8 && c as int != 9 && c as int != 10 && c as int != 12 && c as int != 13 {
      ScanUnicodeEscape(c, tail);
    } else if c == '"' || c == '\\' || c as int < 0x20 {
      ScanShortEscape(c, tail);
    } else {
      var t := EscapeChar(c) + tail;
      assert EscapeChar(c) == [c];
      assert t[0] == c && t[1..] == tail;
    }
  }

  /** A character with a two-character escape reads back from it. */
  lemma ScanShortEscape(c: char, tail: string)
    requires c == '"' || c == '\\' || c as int == 8 || c as int == 9 || c as int == 10 || c as int == 12 || c as int == 13
    ensures ScanString(EscapeChar(c) + tail) == Prepend(c, ScanString(tail))
  {
    var e := EscapeChar(c);
    var t := e + tail;
    assert |e| == 2 && e[0] == '\\' && SimpleEscape(e[1]) == Some(c);
    assert t[0] == e[0] && t[1] == e[1] && t[2..] == tail;
  }

  /** A control character without a short escape reads back from its `\u00XX` form. */
  lemma ScanUnicodeEscape(c: char, tail: string)
    requires c as int < 0x20 && c as int != 8 && c as int != 9 && c as int != 10 && c as int != 12 && c as int != 13
    ensures ScanString(EscapeChar(c) + tail) == Prepend(c, ScanString(tail))
  {
    var hi, lo := c as int / 16, c as int % 16;
    var t := EscapeChar(c) + tail;
    assert EscapeChar(c) == "\\u00" + [HexDigit(hi), HexDigit(lo)];
    assert t[0] == '\\' && t[1] == 'u' && t[2] == '0' && t[3] == '0';
    assert t[4] == HexDigit(hi) && t[5] == HexDigit(lo);
    assert HexValue(HexDigit(hi)) == hi && HexValue(HexDigit(lo)) == lo;
    assert IsUnitEscape(t) && EscapedUnit(t) == c as int;
    assert t[6..] == tail;
  }

  /** The `\uXXXX` escape of a code unit, with lowercase hex digits. */
  function UnitEscape(u: Utf16Bytes.Unit): (e: string)
    ensures |e| == 6
  {
    "\\u" + [HexDigit(u / 4096), HexDigit(u % 4096 / 256), HexDigit(u % 256 / 16), HexDigit(u % 16)]
  }

  lemma HexValueOfDigit(d: int)
    requires 0 <= d < 16
    ensures HexValue(HexDigit(d)) == d
  {
  }

  lemma UnitDigits(u: Utf16Bytes.Unit)
    ensures u / 4096 * 4096 + u % 4096 / 256 * 256 + u % 256 / 16 * 16 + u % 16 == u
  {
    var r := u % 4096;
    assert u == u / 4096 * 4096 + r;
    assert r == r / 256 * 256 + r % 256;
    assert r % 256 == u % 256;
    assert u % 256 == u % 256 / 16 * 16 + u % 16;
  }

  /** A code unit reads back from its escape. */
  lemma UnitEscapeReads(u: Utf16Bytes.Unit, tail: string)
    ensures IsUnitEscape(UnitEscape(u) + tail)
    ensures EscapedUnit(UnitEscape(u) + tail) == u
    ensures (UnitEscape(u) + tail)[6..] == tail
  {
    var t := UnitEscape(u) + tail;
    assert t[2] == HexDigit(u / 4096) && t[3] == HexDigit(u % 4096 / 256);
    assert t[4] == HexDigit(u % 256 / 16) && t[5] == HexDigit(u % 16);
    HexValueOfDigit(u / 4096);
    HexValueOfDigit(u % 4096 / 256);
    HexValueOfDigit(u % 256 / 16);
    HexValueOfDigit(u % 16);
    UnitDigits(u);
  }

  /** An escaped high surrogate followed by an escaped low surrogate scans as
      the one character the pair encodes. */
  lemma ScanSurrogatePair(hi: Utf16Bytes.Unit, lo: Utf16Bytes.Unit, tail: string)
    requires Utf16Bytes.IsHighSurrogate(hi) && Utf16Bytes.IsLowSurrogate(lo)
    ensures ScanString(UnitEscape(hi) + UnitEscape(lo) + tail) == Prepend(Utf16Bytes.PairChar(hi, lo), ScanString(tail))
  {
    var low := UnitEscape(lo) + tail;
    var t := UnitEscape(hi) + low;
    assert UnitEscape(hi) + UnitEscape(lo) + tail == t;
    UnitEscapeReads(hi, low);
    UnitEscapeReads(lo, tail);
    assert t[0] == '\\' && t[1] == 'u';
  }

  /** A character outside the Basic Multilingual Plane, written as an escaped
      surrogate pair, scans back to that one character. */
  lemma ScanEscapedPair(c: char, tail: string)
    requires c as int >= 0x1_0000
    ensures var units := Utf16Bytes.CharUnits(c);
      ScanString(UnitEscape(units[0]) + UnitEscape(units[1]) + tail) == Prepend(c, ScanString(tail))
  {
    var units := Utf16Bytes.CharUnits(c);
    Utf16Bytes.PairCharOfUnits(c);
    ScanSurrogatePair(units[0], units[1], tail);
  }

  /** A text that opens a string literal whose body scans to `s` with nothing after it parses as `s`. */
  lemma ParseStringLiteral(body: string, s: string)
    requires ScanString(body) == Some((s, ""))
    ensures Parse("\"" + body) == Some(Str(s))
  {
    var text := "\"" + body;
    assert text[0] == '"' && text[1..] == body;
    SkipSpaceNone(text);
    assert !(|text| >= 4 && text[..4] == "null");
  }

  /** `JSON.parse` of a string literal holding one escaped surrogate pair, such
      as "\ud83d\ude00", is the one character the pair encodes. */
  lemma ParseEscapedPair(c: char)
    requires c as int >= 0x1_0000
    ensures var units := Utf16Bytes.CharUnits(c);
      Parse("\"" + UnitEscape(units[0]) + UnitEscape(units[1]) + "\"") == Some(Str([c]))
  {
    var units := Utf16Bytes.CharUnits(c);
    var pair := UnitEscape(units[0]) + UnitEscape(units[1]);
    var body := pair + "\"";
    ScanEscapedPair(c, "\"");
    assert ScanString(body) == Prepend(c, ScanString("\""));
    assert ScanString("\"") == Some(([], ""));
    assert [c] + [] == [c];
    ParseStringLiteral(body, [c]);
    assert "\"" + UnitEscape(units[0]) + UnitEscape(units[1]) + "\"" == "\"" + body;
  }

  /** The body of a quoted string scans back to the string and the text after it. */
  lemma {:induction false} ScanEscape(s: string, tail: string)
    ensures ScanString(Escape(s) + "\"" + tail) == Some((s, tail))
  {
    if s == [] {
      assert Escape(s) + "\"" + tail == "\"" + tail;
    } else {
      ScanEscape(s[1..], tail);
      assert Escape(s) + "\"" + tail == EscapeChar(s[0]) + (Escape(s[1..]) + "\"" + tail);
      ScanEscapeChar(s[0], Escape(s[1..]) + "\"" + tail);
      assert [s[0]] + s[1..] == s;
    }
  }

  lemma ScanQuote(s: string, tail: string)
    ensures Quote(s) + tail != [] && (Quote(s) + tail)[0] == '"'
    ensures ScanString((Quote(s) + tail)[1..]) == Some((s, tail))
  {
    assert (Quote(s) + tail)[1..] == Escape(s) + "\"" + tail;
    ScanEscape(s, tail);
  }

  /** The text of a list of quoted strings closed by ']' starts with the
      first string and continues with ']' (one item) or with ',' and the rest. */
  lemma JoinShapeOne(items: seq<string>, tail: string)
    requires |items| == 1
    ensures Join(QuoteAll(items), ",") + "]" + tail == Quote(items[0]) + ("]" + tail)
  {
    assert QuoteAll(items) == [Quote(items[0])];
  }

  lemma JoinShapeMore(items: seq<string>, tail: string)
    requires |items| > 1
    ensures Join(QuoteAll(items), ",") + "]" + tail
         == Quote(items[0]) + ("," + (Join(QuoteAll(items[1..]), ",") + "]" + tail))
  {
    var q := QuoteAll(items);
    assert q[0] == Quote(items[0]);
    assert q[1..] == QuoteAll(items[1..]);
    var j := Join(q[1..], ",");
    assert Join(q, ",") == q[0] + "," + j;
    Regroup(q[0], ",", j, "]", tail);
  }

  lemma Regroup(a: string, b: string, c: string, d: string, e: string)
    ensures a + b + c + d + e == a + (b + (c + d + e))
  {
  }

  lemma JoinStartsWithQuote(items: seq<string>, tail: string)
    requires items != []
    ensures var t := Join(QuoteAll(items), ",") + "]" + tail; t != [] && t[0] == '"'
  {
    if |items| == 1 {
      JoinShapeOne(items, tail);
    } else {
      JoinShapeMore(items, tail);
    }
  }

  lemma ScanLast(s: string, tail: string)
    ensures ScanElements(Quote(s) + ("]" + tail)) == Some(([s], tail))
  {
    ScanQuote(s, "]" + tail);
    SkipSpaceNone("]" + tail);
    assert ("]" + tail)[1..] == tail;
  }

  lemma ScanNext(s: string, rest: string)
    requires rest != [] && rest[0] == '"'
    ensures ScanElements(Quote(s) + ("," + rest)) ==
      match ScanElements(rest)
      case None => None
      case Some((more, tail)) => Some(([s] + more, tail))
  {
    ScanQuote(s, "," + rest);
    SkipSpaceNone("," + rest);
    assert ("," + rest)[1..] == rest;
    SkipSpaceNone(rest);
  }

  lemma {:induction false} ScanJoin(items: seq<string>, tail: string)
    requires items != []
    ensures ScanElements(Join(QuoteAll(items), ",") + "]" + tail) == Some((items, tail))
  {
    if |items| == 1 {
      JoinShapeOne(items, tail);
      ScanLast(items[0], tail);
      assert items == [items[0]];
    } else {
      JoinShapeMore(items, tail);
      var rest := Join(QuoteAll(items[1..]), ",") + "]" + tail;
      JoinStartsWithQuote(items[1..], tail);
      ScanJoin(items[1..], tail);
      ScanNext(items[0], rest);
      assert [items[0]] + items[1..] == items;
    }
  }

  lemma ParseQuote(s: string)
    ensures Parse(Quote(s)) == Some(Str(s))
  {
    ScanQuote(s, "");
    assert Quote(s) + "" == Quote(s);
    SkipSpaceNone(Quote(s));
    assert Quote(s)[0] == '"';
    assert !(|Quote(s)| >= 4 && Quote(s)[..4] == "null");
  }

  lemma ParseList(items: seq<string>)
    ensures Parse("[" + Join(QuoteAll(items), ",") + "]") == Some(StrList(items))
  {
    if items == [] {
      assert "[" + Join(QuoteAll(items), ",") + "]" == "[]";
    } else {
      ParseNonEmptyList(items);
    }
  }

  lemma ParseNonEmptyList(items: seq<string>)
    requires items != []
    ensures Parse("[" + Join(QuoteAll(items), ",") + "]") == Some(StrList(items))
  {
    var body := Join(QuoteAll(items), ",") + "]";
    var text := "[" + body;
    assert "[" + Join(QuoteAll(items), ",") + "]" == text;
    SkipSpaceNone(text);
    assert text[0] == '[' && text[1..] == body;
    assert !(|text| >= 4 && text[..4] == "null");
    JoinStartsWithQuote(items, "");
    assert body + "" == body;
    SkipSpaceNone(body);
    ScanJoin(items, "");
    assert ScanElements(body) == Some((items, ""));
  }

  /** `JSON.parse(JSON.stringify(v))` gives `v` back for every value that has a JSON text. */
  lemma ParseStringify(v: Value)
    requires v != Undefined
    ensures Stringify(v).Some? && Parse(Stringify(v).value) == Some(v)
  {
    match v
    case Null =>
    case Str(s) => ParseQuote(s);
    case StrList(items) => ParseList(items);
  }
}
