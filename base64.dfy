/**
  Base64 as the encryption layer uses it: `btoa(String.fromCharCode(...bytes))`
  is the padded encoding of RFC 4648 section 4, and
  `Uint8Array.from(atob(text), c => c.charCodeAt(0))` is the "forgiving"
  decoder of the HTML standard's `atob`: ASCII white space is skipped, one or
  two final '=' are dropped when the length is a multiple of four, a length
  of 4k+1 or a character outside the alphabet is an error, and the bits left
  over after the last whole byte are discarded.
*/
module Base64 {
  import opened Js

  /** The character that encodes the 6-bit value `v`. */
  function Sextet(v: int): (c: char)
    requires 0 <= v < 64
    ensures IsAlphabet(c)
  {
    if v < 26 then ('A' as int + v) as char
    else if v < 52 then ('a' as int + v - 26) as char
    else if v < 62 then ('0' as int + v - 52) as char
    else if v == 62 then '+'
    else '/'
  }

  predicate IsAlphabet(c: char)
  {
    'A' <= c <= 'Z' || 'a' <= c <= 'z' || '0' <= c <= '9' || c == '+' || c == '/'
  }

  /** The 6-bit value of an alphabet character. */
  function SextetValue(c: char): (v: int)
    requires IsAlphabet(c)
    ensures 0 <= v < 64 && Sextet(v) == c
  {
    if 'A' <= c <= 'Z' then c as int - 'A' as int
    else if 'a' <= c <= 'z' then c as int - 'a' as int + 26
    else if '0' <= c <= '9' then c as int - '0' as int + 52
    else if c == '+' then 62
    else 63
  }

  lemma SextetValueOfSextet(v: int)
    requires 0 <= v < 64
    ensures SextetValue(Sextet(v)) == v
  {
  }

  /** The characters of one group of one to three bytes: 2, 3 or 4 sextets. */
  function Group(b: seq<Byte>): (s: string)
    requires 1 <= |b| <= 3
    ensures |s| == |b| + 1
    ensures AllAlphabet(s)
  {
    if |b| == 1 then
      [Sextet(b[0] / 4), Sextet((b[0] % 4) * 16)]
    else if |b| == 2 then
      [Sextet(b[0] / 4), Sextet((b[0] % 4) * 16 + b[1] / 16), Sextet((b[1] % 16) * 4)]
    else
      [Sextet(b[0] / 4), Sextet((b[0] % 4) * 16 + b[1] / 16),
       Sextet((b[1] % 16) * 4 + b[2] / 64), Sextet(b[2] % 64)]
  }

  /** The encoding without its '=' padding: four characters per three bytes,
      two for one trailing byte and three for two. */
  function EncodeUnpadded(b: seq<Byte>): (s: string)
    ensures |s| == UnpaddedLength(|b|)
    ensures |b| <= |s| <= 2 * |b|
    ensures AllAlphabet(s)
  {
    if |b| == 0 then ""
    else if |b| <= 3 then Group(b)
    else
      var first, rest := Group(b[..3]), EncodeUnpadded(b[3..]);
      assert |first| == 4 && |rest| == UnpaddedLength(|b| - 3);
      AlphabetConcat(first, rest);
      first + rest
  }

  lemma AlphabetConcat(s: string, t: string)
    requires AllAlphabet(s) && AllAlphabet(t)
    ensures AllAlphabet(s + t)
  {
    forall i | 0 <= i < |s + t| ensures IsAlphabet((s + t)[i]) {
      if i >= |s| {
        assert (s + t)[i] == t[i - |s|];
      }
    }
  }

  /** The number of characters in the unpadded encoding of `n` bytes. */
  function UnpaddedLength(n: nat): (len: nat)
    ensures n <= len <= 2 * n
  {
    if n == 0 then 0 else if n <= 3 then n + 1 else 4 + UnpaddedLength(n - 3)
  }

  function Padding(n: nat): string
  {
    if n % 3 == 1 then "==" else if n % 3 == 2 then "=" else ""
  }

  /** `btoa(String.fromCharCode(...bytes))` */
  function Encode(b: seq<Byte>): (s: string)
    ensures |s| == 4 * ((|b| + 2) / 3)
    ensures forall i | 0 <= i < |s| :: IsAlphabet(s[i]) || s[i] == '='
  {
    PaddedLength(|b|);
    EncodeUnpadded(b) + Padding(|b|)
  }

  /** An unpadded encoding is a run of 4-character groups followed by a
      2- or 3-character group exactly when the byte count is not a multiple of three. */
  lemma UnpaddedLengthMod(b: seq<Byte>)
    ensures |EncodeUnpadded(b)| % 4 == (if |b| % 3 == 0 then 0 else |b| % 3 + 1)
  {
    LengthMod(|b|);
  }

  lemma LengthMod(n: nat)
    ensures UnpaddedLength(n) % 4 == (if n % 3 == 0 then 0 else n % 3 + 1)
  {
    LengthGroups(n);
  }

  /** Four characters for each whole group of three bytes, then the tail's. */
  lemma {:induction false} LengthGroups(n: nat)
    ensures UnpaddedLength(n) == 4 * (n / 3) + (if n % 3 == 0 then 0 else n % 3 + 1)
  {
    if n > 3 {
      LengthGroups(n - 3);
      assert (n - 3) / 3 == n / 3 - 1 && (n - 3) % 3 == n % 3;
    }
  }

  /** Four characters for every started group of three bytes. */
  lemma PaddedLength(n: nat)
    ensures UnpaddedLength(n) + |Padding(n)| == 4 * ((n + 2) / 3)
  {
    LengthGroups(n);
    if n % 3 == 0 {
      assert (n + 2) / 3 == n / 3;
    } else {
      assert (n + 2) / 3 == n / 3 + 1;
    }
  }

  /** The padding completes the last group: an encoding is a whole number of 4-character groups. */
  lemma EncodeLengthMod(b: seq<Byte>)
    ensures |Encode(b)| % 4 == 0
  {
    assert |Encode(b)| == UnpaddedLength(|b|) + |Padding(|b|)|;
    PaddedLengthMod(|b|);
  }

  lemma PaddedLengthMod(n: nat)
    ensures (UnpaddedLength(n) + |Padding(n)|) % 4 == 0
  {
    LengthMod(n);
    var u := UnpaddedLength(n);
    if n % 3 == 1 {
      assert |Padding(n)| == 2 && u % 4 == 2;
    } else if n % 3 == 2 {
      assert |Padding(n)| == 1 && u % 4 == 3;
    } else {
      assert |Padding(n)| == 0 && u % 4 == 0;
    }
  }

  /** ASCII white space as `atob` skips it: tab, line feed, form feed, carriage return, space. */
  predicate IsAsciiWhitespace(c: char)
  {
    c as int == 0x09 || c as int == 0x0A || c as int == 0x0C || c as int == 0x0D || c as int == 0x20
  }

  function RemoveWhitespace(s: string): (r: string)
    ensures |r| <= |s|
  {
    if s == [] then []
    else if IsAsciiWhitespace(s[0]) then RemoveWhitespace(s[1..])
    else [s[0]] + RemoveWhitespace(s[1..])
  }

  /** Drops one or two final '=' from a text whose length is a multiple of four. */
  function StripPadding(s: string): string
  {
    if |s| % 4 != 0 then s
    else if |s| >= 2 && s[|s| - 1] == '=' && s[|s| - 2] == '=' then s[..|s| - 2]
    else if |s| >= 1 && s[|s| - 1] == '=' then s[..|s| - 1]
    else s
  }

  predicate AllAlphabet(s: string)
  {
    forall i | 0 <= i < |s| :: IsAlphabet(s[i])
  }

  /** The bytes of two to four characters; the bits after the last whole byte are dropped. */
  function Ungroup(t: string): (b: seq<Byte>)
    requires AllAlphabet(t) && 2 <= |t| <= 4
    ensures |b| == |t| - 1
  {
    var v0, v1 := SextetValue(t[0]), SextetValue(t[1]);
    if |t| == 2 then [v0 * 4 + v1 / 16]
    else
      var v2 := SextetValue(t[2]);
      if |t| == 3 then [v0 * 4 + v1 / 16, (v1 % 16) * 16 + v2 / 4]
      else [v0 * 4 + v1 / 16, (v1 % 16) * 16 + v2 / 4, (v2 % 4) * 64 + SextetValue(t[3])]
  }

  /** The bytes of an unpadded, well-formed text. */
  function DecodeUnpadded(t: string): (b: seq<Byte>)
    requires AllAlphabet(t) && |t| % 4 != 1
    ensures |b| == 3 * |t| / 4
  {
    if |t| == 0 then []
    else if |t| <= 4 then Ungroup(t)
    else Ungroup(t[..4]) + DecodeUnpadded(t[4..])
  }

  /** `atob(text)` read back as bytes; None where `atob` throws. */
  function Decode(text: string): (r: Option<seq<Byte>>)
    ensures text == "" ==> r == Some([])
    ensures r.Some? ==> 4 * |r.value| <= 3 * |text|
  {
    var t := StripPadding(RemoveWhitespace(text));
    if |t| % 4 == 1 || !AllAlphabet(t) then None
    else Some(DecodeUnpadded(t))
  }

  lemma FirstByteBack(x0: Byte, x1: Byte)
    ensures (x0 / 4) * 4 + ((x0 % 4) * 16 + x1 / 16) / 16 == x0
  {
    assert ((x0 % 4) * 16 + x1 / 16) / 16 == x0 % 4;
  }

  lemma SecondByteBack(x0: Byte, x1: Byte, x2: Byte)
    ensures (((x0 % 4) * 16 + x1 / 16) % 16) * 16 + ((x1 % 16) * 4 + x2 / 64) / 4 == x1
  {
    assert ((x0 % 4) * 16 + x1 / 16) % 16 == x1 / 16;
    assert ((x1 % 16) * 4 + x2 / 64) / 4 == x1 % 16;
  }

  lemma ThirdByteBack(x1: Byte, x2: Byte)
    ensures (((x1 % 16) * 4 + x2 / 64) % 4) * 64 + x2 % 64 == x2
  {
    assert ((x1 % 16) * 4 + x2 / 64) % 4 == x2 / 64;
  }

  lemma UngroupGroup(b: seq<Byte>)
    requires 1 <= |b| <= 3
    ensures Ungroup(Group(b)) == b
  {
    if |b| == 1 {
      UngroupOne(b);
    } else if |b| == 2 {
      UngroupTwo(b);
    } else {
      UngroupThree(b);
    }
  }

  lemma UngroupOne(b: seq<Byte>)
    requires |b| == 1
    ensures Ungroup(Group(b)) == b
  {
    var x0 := b[0];
    SextetValueOfSextet(x0 / 4);
    SextetValueOfSextet((x0 % 4) * 16);
    FirstByteBack(x0, 0);
  }

  lemma UngroupTwo(b: seq<Byte>)
    requires |b| == 2
    ensures Ungroup(Group(b)) == b
  {
    var x0, x1 := b[0], b[1];
    SextetValueOfSextet(x0 / 4);
    SextetValueOfSextet((x0 % 4) * 16 + x1 / 16);
    SextetValueOfSextet((x1 % 16) * 4);
    FirstByteBack(x0, x1);
    SecondByteBack(x0, x1, 0);
  }

  /** Four sextets read back as the three bytes their bits spell. */
  lemma UngroupSextets(a: int, b: int, c: int, d: int)
    requires 0 <= a < 64 && 0 <= b < 64 && 0 <= c < 64 && 0 <= d < 64
    ensures Ungroup([Sextet(a), Sextet(b), Sextet(c), Sextet(d)]) ==
      [a * 4 + b / 16, (b % 16) * 16 + c / 4, (c % 4) * 64 + d]
  {
    SextetValueOfSextet(a);
    SextetValueOfSextet(b);
    SextetValueOfSextet(c);
    SextetValueOfSextet(d);
  }

  lemma UngroupThree(bytes3: seq<Byte>)
    requires |bytes3| == 3
    ensures Ungroup(Group(bytes3)) == bytes3
  {
    assert bytes3 == [bytes3[0], bytes3[1], bytes3[2]];
    UngroupBytes(bytes3[0], bytes3[1], bytes3[2]);
  }

  lemma UngroupBytes(x0: Byte, x1: Byte, x2: Byte)
    ensures Ungroup(Group([x0, x1, x2])) == [x0, x1, x2]
  {
    var a, b, c, d := x0 / 4, (x0 % 4) * 16 + x1 / 16, (x1 % 16) * 4 + x2 / 64, x2 % 64;
    var bs := [x0, x1, x2];
    assert |bs| == 3 && bs[0] == x0 && bs[1] == x1 && bs[2] == x2;
    assert Group(bs) == [Sextet(a), Sextet(b), Sextet(c), Sextet(d)];
    UngroupSextets(a, b, c, d);
    var bytes := [a * 4 + b / 16, (b % 16) * 16 + c / 4, (c % 4) * 64 + d];
    assert bytes[0] == x0 by { FirstByteBack(x0, x1); }
    assert bytes[1] == x1 by { SecondByteBack(x0, x1, x2); }
    assert bytes[2] == x2 by { ThirdByteBack(x1, x2); }
    assert bytes == [x0, x1, x2];
  }

  lemma {:induction false} DecodeEncodeUnpadded(b: seq<Byte>)
    requires |EncodeUnpadded(b)| % 4 != 1
    ensures DecodeUnpadded(EncodeUnpadded(b)) == b
  {
    var s := EncodeUnpadded(b);
    if 1 <= |b| <= 3 {
      UngroupGroup(b);
    } else if |b| > 3 {
      UnpaddedLengthMod(b[3..]);
      DecodeEncodeUnpadded(b[3..]);
      UngroupGroup(b[..3]);
      assert s[..4] == Group(b[..3]);
      assert s[4..] == EncodeUnpadded(b[3..]);
      assert b == b[..3] + b[3..];
    }
  }

  lemma {:induction false} RemoveWhitespaceKeeps(s: string)
    requires forall i | 0 <= i < |s| :: !IsAsciiWhitespace(s[i])
    ensures RemoveWhitespace(s) == s
  {
    if s != [] {
      RemoveWhitespaceKeeps(s[1..]);
      assert [s[0]] + s[1..] == s;
    }
  }

  lemma StripTwo(u: string)
    requires |u| % 4 == 2
    ensures StripPadding(u + "==") == u
  {
    var s := u + "==";
    assert |s| % 4 == 0;
    assert s[..|s| - 2] == u;
  }

  lemma StripOne(u: string)
    requires |u| % 4 == 3 && AllAlphabet(u)
    ensures StripPadding(u + "=") == u
  {
    var s := u + "=";
    assert |s| % 4 == 0;
    assert s[|s| - 2] == u[|u| - 1];
    assert s[..|s| - 1] == u;
  }

  lemma StripNone(u: string)
    requires |u| % 4 == 0 && AllAlphabet(u)
    ensures StripPadding(u) == u
  {
    if |u| >= 1 {
      assert IsAlphabet(u[|u| - 1]);
    }
  }

  lemma StripPaddingOfEncode(b: seq<Byte>)
    ensures StripPadding(Encode(b)) == EncodeUnpadded(b)
  {
    var u := EncodeUnpadded(b);
    UnpaddedLengthMod(b);
    if |b| % 3 == 1 {
      StripTwo(u);
    } else if |b| % 3 == 2 {
      StripOne(u);
    } else {
      assert Encode(b) == u;
      StripNone(u);
    }
  }

  /** `atob` inverts `btoa` on every byte string. */
  lemma DecodeEncode(b: seq<Byte>)
    ensures Decode(Encode(b)) == Some(b)
  {
    var s := Encode(b);
    forall i | 0 <= i < |s| ensures !IsAsciiWhitespace(s[i]) {
      if i < |EncodeUnpadded(b)| {
        assert s[i] == EncodeUnpadded(b)[i];
      }
    }
    RemoveWhitespaceKeeps(s);
    StripPaddingOfEncode(b);
    UnpaddedLengthMod(b);
    DecodeEncodeUnpadded(b);
  }

  /** Different byte strings never share an encoding. */
  lemma EncodeInjective(b1: seq<Byte>, b2: seq<Byte>)
    requires Encode(b1) == Encode(b2)
    ensures b1 == b2
  {
    DecodeEncode(b1);
    DecodeEncode(b2);
  }
}
