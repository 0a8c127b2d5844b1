/**
  The string <-> byte codec of the encryption layer: a JavaScript string is a
  sequence of UTF-16 code units, `str2ab` writes each code unit into a
  Uint16Array (two bytes, little-endian on every platform that runs the
  browser code) and `ab2str` reads the units back with `String.fromCharCode`.
  A Dafny string is a sequence of Unicode scalar values, so the code units
  of a string are its UTF-16 encoding.
*/
module Utf16Bytes {
  import opened Js

  /** A 16-bit code unit. */
  type Unit = u: int | 0 <= u < 0x1_0000

  predicate IsHighSurrogate(u: int) { 0xD800 <= u <= 0xDBFF }
  predicate IsLowSurrogate(u: int) { 0xDC00 <= u <= 0xDFFF }

  /** The UTF-16 code units of one character. */
  function CharUnits(c: char): (r: seq<Unit>)
    ensures |r| == 1 || |r| == 2
    ensures |r| == 1 <==> c as int < 0x1_0000
    ensures |r| == 1 ==> !IsHighSurrogate(r[0]) && !IsLowSurrogate(r[0])
    ensures |r| == 2 ==> IsHighSurrogate(r[0]) && IsLowSurrogate(r[1])
  {
    var n := c as int;
    if n < 0x1_0000 then [n]
    else [0xD800 + (n - 0x1_0000) / 0x400, 0xDC00 + (n - 0x1_0000) % 0x400]
  }

  /** The code units of a string: what `str.length` counts and `charCodeAt` returns. */
  function Units(s: string): seq<Unit>
  {
    if s == [] then [] else CharUnits(s[0]) + Units(s[1..])
  }

  /** `String.fromCharCode(...units)`; None when the units hold a lone
      surrogate, which no string of this model can represent. */
  function FromUnits(u: seq<Unit>): (r: Option<string>)
    ensures r.Some? ==> |r.value| <= |u|
  {
    if u == [] then Some([])
    else if IsLowSurrogate(u[0]) then None
    else if IsHighSurrogate(u[0]) then
      if |u| >= 2 && IsLowSurrogate(u[1]) then
        var n: int := 0x1_0000 + (u[0] as int - 0xD800) * 0x400 + (u[1] as int - 0xDC00);
        match FromUnits(u[2..])
        case None => None
        case Some(rest) => Some([n as char] + rest)
      else None
    else
      match FromUnits(u[1..])
      case None => None
      case Some(rest) => Some([u[0] as char] + rest)
  }

  /** The bytes of a Uint16Array holding `u`, low byte first. */
  function UnitBytes(u: seq<Unit>): (b: seq<Byte>)
    ensures |b| == 2 * |u|
  {
    seq(2 * |u|, j requires 0 <= j < 2 * |u| => if j % 2 == 0 then u[j / 2] % 256 else u[j / 2] / 256)
  }

  /** The code units a Uint16Array view of `b` reads (|b| even). */
  function BytesUnits(b: seq<Byte>): (u: seq<Unit>)
    requires |b| % 2 == 0
    ensures |u| == |b| / 2
  {
    seq(|b| / 2, i requires 0 <= i < |b| / 2 => b[2 * i] as int + 256 * b[2 * i + 1] as int)
  }

  /** The buffer `str2ab(s)` returns. */
  function EncodeString(s: string): (b: seq<Byte>)
    ensures |b| == 2 * JsLength(s)
    ensures 2 * |s| <= |b| <= 4 * |s|
  {
    UnitBytes(Units(s))
  }

  /** `ab2str(buf)`: a byte length that is not a multiple of two makes the
      Uint16Array constructor throw. */
  function DecodeString(b: seq<Byte>): (r: Option<string>)
    ensures |b| % 2 != 0 ==> r.None?
    ensures r.Some? ==> 2 * |r.value| <= |b|
  {
    if |b| % 2 != 0 then None else FromUnits(BytesUnits(b))
  }

  /** `str2ab`: a buffer of two bytes per code unit, filled one unit at a time. */
  method Str2Ab(s: string) returns (buf: array<Byte>)
    ensures buf.Length == 2 * |Units(s)|
    ensures buf[..] == EncodeString(s)
  {
    var units := Units(s);
    buf := new Byte[2 * |units|];
    var i := 0;
    while i < |units|
      invariant 0 <= i <= |units|
      invariant forall j | 0 <= j < 2 * i :: buf[j] == UnitBytes(units)[j]
    {
      buf[2 * i] := units[i] % 256;
      buf[2 * i + 1] := units[i] / 256;
      i := i + 1;
    }
  }

  lemma {:induction false} FromUnitsOfUnits(s: string)
    ensures FromUnits(Units(s)) == Some(s)
  {
    if s != [] {
      FromUnitsOfUnits(s[1..]);
      var u := Units(s);
      var cu := CharUnits(s[0]);
      assert u == cu + Units(s[1..]);
      if |cu| == 1 {
        assert u[1..] == Units(s[1..]);
        assert (u[0] as char) == s[0];
        assert [u[0] as char] + s[1..] == s;
      } else {
        assert u[2..] == Units(s[1..]);
        assert u[0] == cu[0] && u[1] == cu[1];
        var n := s[0] as int;
        assert 0x1_0000 + (u[0] as int - 0xD800) * 0x400 + (u[1] as int - 0xDC00) == n;
        assert [n as char] + s[1..] == s;
      }
    }
  }

  lemma BytesUnitsOfUnitBytes(u: seq<Unit>)
    ensures BytesUnits(UnitBytes(u)) == u
  {
    var b := UnitBytes(u);
    forall i | 0 <= i < |u| ensures BytesUnits(b)[i] == u[i] {
      assert b[2 * i] == u[i] % 256;
      assert b[2 * i + 1] == u[i] / 256;
    }
  }

  /** `ab2str` inverts `str2ab`. */
  lemma DecodeEncode(s: string)
    ensures DecodeString(EncodeString(s)) == Some(s)
  {
    BytesUnitsOfUnitBytes(Units(s));
    FromUnitsOfUnits(s);
  }

  /** A surrogate pair rebuilt into one character splits back into the same pair. */
  lemma PairUnits(hi: int, lo: int)
    requires IsHighSurrogate(hi) && IsLowSurrogate(lo)
    ensures var n := 0x1_0000 + (hi - 0xD800) * 0x400 + (lo - 0xDC00);
      0x1_0000 <= n < 0x11_0000 && (n - 0x1_0000) / 0x400 == hi - 0xD800 && (n - 0x1_0000) % 0x400 == lo - 0xDC00
  {
  }

  /** The character a surrogate pair stands for. */
  function PairChar(hi: int, lo: int): (c: char)
    requires IsHighSurrogate(hi) && IsLowSurrogate(lo)
    ensures c as int >= 0x1_0000
    ensures CharUnits(c) == [hi, lo]
  {
    PairUnits(hi, lo);
    (0x1_0000 + (hi - 0xD800) * 0x400 + (lo - 0xDC00)) as char
  }

  /** A character outside the Basic Multilingual Plane is the character of its own surrogate pair. */
  lemma PairCharOfUnits(c: char)
    requires c as int >= 0x1_0000
    ensures IsHighSurrogate(CharUnits(c)[0]) && IsLowSurrogate(CharUnits(c)[1])
    ensures PairChar(CharUnits(c)[0], CharUnits(c)[1]) == c
  {
    var m := c as int - 0x1_0000;
    assert CharUnits(c) == [0xD800 + m / 0x400, 0xDC00 + m % 0x400];
    assert m / 0x400 * 0x400 + m % 0x400 == m;
  }

  /** Code units that `String.fromCharCode` accepts are the units of the string it gives. */
  lemma {:induction false} UnitsOfFromUnits(u: seq<Unit>)
    requires FromUnits(u).Some?
    ensures Units(FromUnits(u).value) == u
  {
    if u != [] {
      var s := FromUnits(u).value;
      if IsHighSurrogate(u[0]) {
        UnitsOfFromUnits(u[2..]);
        PairUnits(u[0], u[1]);
        assert s[1..] == FromUnits(u[2..]).value;
        assert u == [u[0], u[1]] + u[2..];
      } else {
        UnitsOfFromUnits(u[1..]);
        assert s[1..] == FromUnits(u[1..]).value;
        assert u == [u[0]] + u[1..];
      }
    }
  }

  lemma UnitBytesOfBytesUnits(b: seq<Byte>)
    requires |b| % 2 == 0
    ensures UnitBytes(BytesUnits(b)) == b
  {
    var u := BytesUnits(b);
    forall j | 0 <= j < |b| ensures UnitBytes(u)[j] == b[j] {
      var i := j / 2;
      assert u[i] == b[2 * i] as int + 256 * b[2 * i + 1] as int;
    }
  }

  /** `str2ab` inverts `ab2str`: a buffer `ab2str` accepts is the buffer of the string it reads. */
  lemma EncodeDecode(b: seq<Byte>)
    requires DecodeString(b).Some?
    ensures EncodeString(DecodeString(b).value) == b
  {
    UnitsOfFromUnits(BytesUnits(b));
    UnitBytesOfBytesUnits(b);
  }

  /** Every character takes two bytes, astral characters four. */
  lemma {:induction false} UnitsLength(s: string)
    ensures |s| <= |Units(s)| <= 2 * |s|
  {
    if s != [] {
      UnitsLength(s[1..]);
    }
  }

  /** `s.length`: the number of UTF-16 code units. */
  function JsLength(s: string): (n: nat)
    ensures |s| <= n <= 2 * |s|
  {
    UnitsLength(s);
    |Units(s)|
  }

  /** Two strings whose characters pair up one by one, each pair both inside
      or both outside the Basic Multilingual Plane, have the same `length`. */
  lemma {:induction false} JsLengthPointwise(s: string, t: string)
    requires |s| == |t|
    requires forall i | 0 <= i < |s| :: (s[i] as int < 0x1_0000) == (t[i] as int < 0x1_0000)
    ensures JsLength(s) == JsLength(t)
  {
    if s != [] {
      JsLengthPointwise(s[1..], t[1..]);
    }
  }
}
