/**
 Key re-encoding: base64 text (section 4 of RFC 4648) to bytes to lowercase base16 (section 8).
 Decoding is Go's: line breaks are skipped, padding is required, and the unused bits of the last
 digit are not looked at.
 */
module Base64 {
  import opened Wrappers

  type Byte = b: int | 0 <= b < 256
  type Digit64 = d: int | 0 <= d < 64

  // ---------------------------------------------------------------- digits

  function Char64(d: Digit64): char {
    if d < 26 then (d + 65) as char
    else if d < 52 then (d + 71) as char
    else if d < 62 then (d - 4) as char
    else if d == 62 then '+'
    else '/'
  }

  function Value64(c: char): Option<Digit64> {
    if 'A' <= c <= 'Z' then Some(c as int - 65)
    else if 'a' <= c <= 'z' then Some(c as int - 71)
    else if '0' <= c <= '9' then Some(c as int + 4)
    else if c == '+' then Some(62)
    else if c == '/' then Some(63)
    else None
  }

  lemma Digits64Inverse(d: Digit64, c: char)
    ensures Value64(Char64(d)) == Some(d)
    ensures Char64(d) != '=' && Char64(d) != '\r' && Char64(d) != '\n'
    ensures Value64(c).Some? ==> Char64(Value64(c).value) == c
  {
  }

  // ---------------------------------------------------------------- base64

  // The four digits of three bytes.
  function Chars(x: Byte, y: Byte, z: Byte): (r: string)
    ensures |r| == 4
  {
    [Char64(x / 4), Char64(x % 4 * 16 + y / 16), Char64(y % 16 * 4 + z / 64), Char64(z % 64)]
  }

  function Encode(bs: seq<Byte>): string {
    if |bs| == 0 then ""
    else if |bs| == 1 then Chars(bs[0], 0, 0)[..2] + "=="
    else if |bs| == 2 then Chars(bs[0], bs[1], 0)[..3] + "="
    else Chars(bs[0], bs[1], bs[2]) + Encode(bs[3..])
  }

  function SkipBreaks(s: string): string {
    if s == "" then ""
    else if s[0] == '\r' || s[0] == '\n' then SkipBreaks(s[1..])
    else [s[0]] + SkipBreaks(s[1..])
  }

  function Quad(a: Digit64, b: Digit64, c: Digit64, d: Digit64): (r: seq<Byte>)
    ensures |r| == 3
  {
    [a * 4 + b / 16, b % 16 * 16 + c / 4, c % 4 * 64 + d]
  }

  function DecodeQuads(s: string): Option<seq<Byte>> {
    if s == "" then Some([])
    else if |s| < 4 || Value64(s[0]).None? || Value64(s[1]).None? then None
    else
      var a, b := Value64(s[0]).value, Value64(s[1]).value;
      if s[2] == '=' then
        if s[3] == '=' && |s| == 4 then Some(Quad(a, b, 0, 0)[..1]) else None
      else if Value64(s[2]).None? then None
      else
        var c := Value64(s[2]).value;
        if s[3] == '=' then
          if |s| == 4 then Some(Quad(a, b, c, 0)[..2]) else None
        else if Value64(s[3]).None? then None
        else
          match DecodeQuads(s[4..])
          case None => None
          case Some(rest) => Some(Quad(a, b, c, Value64(s[3]).value) + rest)
  }

  function Decode(s: string): Option<seq<Byte>> {
    DecodeQuads(SkipBreaks(s))
  }

  // ---------------------------------------------------------------- base16

  function HexChar(d: int): char
    requires 0 <= d < 16
  {
    if d < 10 then (d + 48) as char else (d + 87) as char
  }

  function HexValue(c: char): Option<int> {
    if '0' <= c <= '9' then Some(c as int - 48)
    else if 'a' <= c <= 'f' then Some(c as int - 87)
    else None
  }

  predicate IsHex(c: char) {
    HexValue(c).Some?
  }

  function HexEncode(bs: seq<Byte>): string {
    if bs == [] then "" else [HexChar(bs[0] / 16), HexChar(bs[0] % 16)] + HexEncode(bs[1..])
  }

  function HexDecode(s: string): Option<seq<Byte>> {
    if s == "" then Some([])
    else if |s| < 2 || !IsHex(s[0]) || !IsHex(s[1]) then None
    else
      match HexDecode(s[2..])
      case None => None
      case Some(rest) =>
        assert 0 <= HexValue(s[0]).value < 16 && 0 <= HexValue(s[1]).value < 16;
        Some([HexValue(s[0]).value * 16 + HexValue(s[1]).value] + rest)
  }

  lemma HexByte(b: Byte)
    ensures HexValue(HexChar(b / 16)) == Some(b / 16) && HexValue(HexChar(b % 16)) == Some(b % 16)
    ensures b / 16 * 16 + b % 16 == b
  {
  }

  lemma {:induction false} HexRoundTrip(bs: seq<Byte>)
    ensures HexDecode(HexEncode(bs)) == Some(bs)
    ensures |HexEncode(bs)| == 2 * |bs|
    ensures forall i | 0 <= i < |HexEncode(bs)| :: IsHex(HexEncode(bs)[i])
  {
    hide HexChar, HexValue;
    if bs != [] {
      HexRoundTrip(bs[1..]);
      HexByte(bs[0]);
      var s := HexEncode(bs);
      assert s[2..] == HexEncode(bs[1..]);
      assert [bs[0]] + bs[1..] == bs;
    }
  }

  // ---------------------------------------------------------------- the two encodings by the tables of the RFC

  // Tables 1 and 5 of RFC 4648, the latter in lower case.
  lemma Alphabets(d: Digit64)
    ensures d < 26 ==> Char64(d) as int - 'A' as int == d
    ensures 26 <= d < 52 ==> Char64(d) as int - 'a' as int == d - 26
    ensures 52 <= d < 62 ==> Char64(d) as int - '0' as int == d - 52
    ensures d == 62 ==> Char64(d) == '+'
    ensures d == 63 ==> Char64(d) == '/'
    ensures d < 10 ==> HexChar(d) as int - '0' as int == d
    ensures 10 <= d < 16 ==> HexChar(d) as int - 'a' as int == d - 10
  {
  }

  // Three bytes, read as one number, are written as its four digits to base 64, highest first.
  lemma GroupIsNumber(x: Byte, y: Byte, z: Byte)
    ensures forall i | 0 <= i < 4 :: Value64(Chars(x, y, z)[i]).Some?
    ensures var r := Chars(x, y, z);
            x * 65536 + y * 256 + z
            == Value64(r[0]).value * 262144 + Value64(r[1]).value * 4096
               + Value64(r[2]).value * 64 + Value64(r[3]).value
  {
    hide Char64, Value64;
    Digits64Inverse(x / 4, 'A');
    Digits64Inverse(x % 4 * 16 + y / 16, 'A');
    Digits64Inverse(y % 16 * 4 + z / 64, 'A');
    Digits64Inverse(z % 64, 'A');
    Wholes(x);
    Wholes(y);
    Wholes(z);
  }

  // The i-th group of three bytes is the i-th group of four digits.
  lemma {:induction false} EncodeAt(bs: seq<Byte>, i: nat)
    requires 3 * i + 3 <= |bs|
    ensures 4 * i + 4 <= |Encode(bs)|
    ensures Encode(bs)[4 * i..4 * i + 4] == Chars(bs[3 * i], bs[3 * i + 1], bs[3 * i + 2])
  {
    hide Chars;
    if i > 0 {
      EncodeAt(bs[3..], i - 1);
      var rest := Encode(bs[3..]);
      assert Encode(bs)[4..] == rest;
      assert Encode(bs)[4 * i..4 * i + 4] == rest[4 * (i - 1)..4 * (i - 1) + 4];
    }
  }

  // The last one or two bytes are padded with zero bits to whole digits, and with '=' to four.
  lemma {:induction false} EncodeEnd(bs: seq<Byte>)
    ensures var n := |bs| / 3;
            && (|bs| % 3 == 0 ==> |Encode(bs)| == 4 * n)
            && (|bs| % 3 == 1 ==>
                  && |Encode(bs)| == 4 * n + 4
                  && Encode(bs)[4 * n..] == Chars(bs[3 * n], 0, 0)[..2] + "==")
            && (|bs| % 3 == 2 ==>
                  && |Encode(bs)| == 4 * n + 4
                  && Encode(bs)[4 * n..] == Chars(bs[3 * n], bs[3 * n + 1], 0)[..3] + "=")
  {
    hide Chars;
    if |bs| >= 3 {
      EncodeEnd(bs[3..]);
      var n, rest := |bs| / 3, Encode(bs[3..]);
      assert |bs[3..]| / 3 == n - 1 && |bs[3..]| % 3 == |bs| % 3;
      assert Encode(bs)[4..] == rest;
      if |bs| % 3 != 0 {
        assert Encode(bs)[4 * n..] == rest[4 * (n - 1)..];
      }
    }
  }

  // Byte i is written at 2i and 2i + 1, high digit first.
  lemma {:induction false} HexAt(bs: seq<Byte>, i: nat)
    requires i < |bs|
    ensures 2 * i + 1 < |HexEncode(bs)|
    ensures HexEncode(bs)[2 * i] == HexChar(bs[i] / 16) && HexEncode(bs)[2 * i + 1] == HexChar(bs[i] % 16)
  {
    hide HexChar;
    if i > 0 {
      HexAt(bs[1..], i - 1);
      assert HexEncode(bs)[2..] == HexEncode(bs[1..]);
    }
  }

  // ---------------------------------------------------------------- canonical texts

  // Four-character groups of digits; the last may be padded, with its unused bits zero.
  predicate Canonical(s: string) {
    if s == "" then true
    else if |s| < 4 || Value64(s[0]).None? || Value64(s[1]).None? then false
    else if s[2] == '=' then |s| == 4 && s[3] == '=' && Value64(s[1]).value % 16 == 0
    else if Value64(s[2]).None? then false
    else if s[3] == '=' then |s| == 4 && Value64(s[2]).value % 4 == 0
    else Value64(s[3]).Some? && Canonical(s[4..])
  }

  lemma {:induction false} NothingToSkip(s: string)
    requires '\r' !in s && '\n' !in s
    ensures SkipBreaks(s) == s
  {
    if s != "" {
      NothingToSkip(s[1..]);
    }
  }

  lemma {:induction false} CanonicalHasNoBreaks(s: string)
    requires Canonical(s)
    ensures '\r' !in s && '\n' !in s
  {
    if |s| > 4 {
      CanonicalHasNoBreaks(s[4..]);
      assert s == s[..4] + s[4..];
      assert forall c <- s[..4] :: c == s[0] || c == s[1] || c == s[2] || c == s[3];
    }
  }

  lemma Parts(a: nat, b: nat)
    ensures b < 4 ==> (a * 4 + b) / 4 == a && (a * 4 + b) % 4 == b
    ensures b < 16 ==> (a * 16 + b) / 16 == a && (a * 16 + b) % 16 == b
  {
  }

  lemma Wholes(x: Byte)
    ensures x / 4 * 4 + x % 4 == x && x / 16 * 16 + x % 16 == x && x / 64 * 64 + x % 64 == x
    ensures x / 4 < 64 && x / 16 < 16 && x / 64 < 4
  {
  }

  lemma QuadOfParts(x: Byte, y: Byte, z: Byte)
    ensures Quad(x / 4, x % 4 * 16 + y / 16, y % 16 * 4 + z / 64, z % 64) == [x, y, z]
  {
    Parts(x % 4, y / 16);
    Parts(y % 16, z / 64);
    Wholes(x);
    Wholes(y);
    Wholes(z);
  }

  // Three bytes through their digits, and four digits through their bytes.
  lemma BytesThroughChars(x: Byte, y: Byte, z: Byte)
    ensures var r := Chars(x, y, z);
            && (forall i | 0 <= i < 4 :: Value64(r[i]).Some?)
            && Quad(Value64(r[0]).value, Value64(r[1]).value, Value64(r[2]).value, Value64(r[3]).value) == [x, y, z]
            && (y == z == 0 ==> Value64(r[1]).value % 16 == 0 && Value64(r[2]).value == 0 && Value64(r[3]).value == 0)
            && (z == 0 ==> Value64(r[2]).value % 4 == 0 && Value64(r[3]).value == 0)
  {
    hide Char64, Value64, Quad;
    QuadOfParts(x, y, z);
    Digits64Inverse(x / 4, 'A');
    Digits64Inverse(x % 4 * 16 + y / 16, 'A');
    Digits64Inverse(y % 16 * 4 + z / 64, 'A');
    Digits64Inverse(z % 64, 'A');
  }

  lemma CharsThroughBytes(a: Digit64, b: Digit64, c: Digit64, d: Digit64)
    ensures var r := Quad(a, b, c, d);
            && Chars(r[0], r[1], r[2]) == [Char64(a), Char64(b), Char64(c), Char64(d)]
            && Chars(r[0], 0, 0)[..2] == [Char64(a), Char64(b / 16 * 16)]
            && Chars(r[0], r[1], 0)[..3] == [Char64(a), Char64(b), Char64(c / 4 * 4)]
  {
    var r := Quad(a, b, c, d);
    assert r[0] / 4 == a && r[0] % 4 * 16 + r[1] / 16 == b && r[1] % 16 * 4 + r[2] / 64 == c && r[2] % 64 == d;
    assert r[0] % 4 * 16 == b / 16 * 16 && r[1] % 16 * 4 == c / 4 * 4;
  }

  lemma NotPadding(c: char)
    ensures Value64(c).Some? ==> c != '=' && c != '\r' && c != '\n' && Char64(Value64(c).value) == c
  {
  }

  // Encoding produces canonical text, and decoding takes it back.
  lemma {:induction false} DecodeEncode(bs: seq<Byte>)
    ensures Canonical(Encode(bs)) && DecodeQuads(Encode(bs)) == Some(bs)
  {
    hide Chars, Char64, Value64, Quad;
    if bs != [] {
      var x, y, z := bs[0], if |bs| > 1 then bs[1] else 0, if |bs| > 2 then bs[2] else 0;
      var r, s := Chars(x, y, z), Encode(bs);
      BytesThroughChars(x, y, z);
      NotPadding(r[2]);
      NotPadding(r[3]);
      assert s[0] == r[0] && s[1] == r[1];
      if |bs| == 1 {
        assert bs == [x, y, z][..1];
      } else if |bs| == 2 {
        assert s[2] == r[2];
        assert bs == [x, y, z][..2];
      } else {
        DecodeEncode(bs[3..]);
        assert s[2] == r[2] && s[3] == r[3] && s[4..] == Encode(bs[3..]);
        assert bs == [x, y, z] + bs[3..];
      }
    }
  }

  // Of the texts that decode without breaks, re-encoding returns exactly the canonical ones.
  lemma {:induction false} EncodeDecode(s: string)
    requires DecodeQuads(s).Some?
    ensures Encode(DecodeQuads(s).value) == s <==> Canonical(s)
  {
    if s != "" {
      if s[2] == '=' {
        OneByteTail(s);
      } else if s[3] == '=' {
        TwoByteTail(s);
      } else {
        EncodeDecode(s[4..]);
        FullQuad(s);
      }
    }
  }

  // Dropping the unused bits of a digit keeps the character only if they were zero.
  lemma RoundedDigit(d: Digit64, unit: int, c: char)
    requires (unit == 4 || unit == 16) && Value64(c) == Some(d)
    ensures Char64(d / unit * unit) == c <==> d % unit == 0
  {
    Digits64Inverse(d / unit * unit, c);
  }

  lemma OneByteTail(s: string)
    requires |s| == 4 && DecodeQuads(s).Some? && s[2] == '='
    ensures Encode(DecodeQuads(s).value) == s <==> Canonical(s)
  {
    var a, b := Value64(s[0]).value, Value64(s[1]).value;
    CharsThroughBytes(a, b, 0, 0);
    RoundedDigit(b, 16, s[1]);
    NotPadding(s[0]);
    var t := Encode(DecodeQuads(s).value);
    assert t == [s[0], Char64(b / 16 * 16), '=', '='];
    assert s == [s[0], s[1], '=', '='];
  }

  lemma TwoByteTail(s: string)
    requires |s| == 4 && DecodeQuads(s).Some? && s[2] != '=' && s[3] == '='
    ensures Encode(DecodeQuads(s).value) == s <==> Canonical(s)
  {
    hide Quad, Chars, Char64, Value64;
    var a, b, c := Value64(s[0]).value, Value64(s[1]).value, Value64(s[2]).value;
    CharsThroughBytes(a, b, c, 0);
    RoundedDigit(c, 4, s[2]);
    NotPadding(s[0]);
    NotPadding(s[1]);
    var t := Encode(DecodeQuads(s).value);
    assert t == [s[0], s[1], Char64(c / 4 * 4), '='];
    assert s == [s[0], s[1], s[2], '='];
  }

  lemma SamePrefix(p: string, x: string, y: string)
    ensures p + x == p + y <==> x == y
  {
    if p + x == p + y {
      assert (p + x)[|p|..] == x && (p + y)[|p|..] == y;
    }
  }

  lemma EncodeQuad(a: Digit64, b: Digit64, c: Digit64, d: Digit64, rest: seq<Byte>)
    ensures Encode(Quad(a, b, c, d) + rest) == [Char64(a), Char64(b), Char64(c), Char64(d)] + Encode(rest)
  {
    hide Quad, Chars, Char64;
    CharsThroughBytes(a, b, c, d);
    var bs := Quad(a, b, c, d) + rest;
    assert bs[3..] == rest;
  }

  // The first group of a text that goes on after four digits.
  predicate FullGroup(s: string) {
    |s| >= 4 && forall i | 0 <= i < 4 :: Value64(s[i]).Some?
  }

  function GroupBytes(s: string): seq<Byte>
    requires FullGroup(s)
  {
    Quad(Value64(s[0]).value, Value64(s[1]).value, Value64(s[2]).value, Value64(s[3]).value)
  }

  lemma FullGroupDecodes(s: string)
    requires |s| >= 4 && DecodeQuads(s).Some? && s[2] != '=' && s[3] != '='
    ensures FullGroup(s) && DecodeQuads(s[4..]).Some?
    ensures DecodeQuads(s).value == GroupBytes(s) + DecodeQuads(s[4..]).value
    ensures Canonical(s) <==> Canonical(s[4..])
  {
    hide Value64, Quad, DecodeQuads, Canonical, GroupBytes, FullGroup;
    FullGroupReads(s);
    FullGroupContinues(s);
  }

  lemma FullGroupReads(s: string)
    requires |s| >= 4 && DecodeQuads(s).Some? && s[2] != '=' && s[3] != '='
    ensures FullGroup(s) && DecodeQuads(s[4..]).Some?
    ensures DecodeQuads(s).value == GroupBytes(s) + DecodeQuads(s[4..]).value
  {
    hide Value64, Quad;
  }

  lemma FullGroupContinues(s: string)
    requires FullGroup(s) && s[2] != '=' && s[3] != '='
    ensures Canonical(s) <==> Canonical(s[4..])
  {
    hide Value64;
  }

  lemma FullGroupEncodes(s: string, rest: seq<Byte>)
    requires FullGroup(s)
    ensures Encode(GroupBytes(s) + rest) == s[..4] + Encode(rest)
  {
    NotPadding(s[0]);
    NotPadding(s[1]);
    NotPadding(s[2]);
    NotPadding(s[3]);
    EncodeQuad(Value64(s[0]).value, Value64(s[1]).value, Value64(s[2]).value, Value64(s[3]).value, rest);
    assert s[..4] == [s[0], s[1], s[2], s[3]];
  }

  lemma FullQuad(s: string)
    requires |s| >= 4 && DecodeQuads(s).Some? && s[2] != '=' && s[3] != '='
    requires Encode(DecodeQuads(s[4..]).value) == s[4..] <==> Canonical(s[4..])
    ensures Encode(DecodeQuads(s).value) == s <==> Canonical(s)
  {
    FullGroupDecodes(s);
    hide DecodeQuads, Canonical, GroupBytes, FullGroup, Encode;
    var rest := DecodeQuads(s[4..]).value;
    FullGroupEncodes(s, rest);
    assert s == s[..4] + s[4..];
    SamePrefix(s[..4], Encode(rest), s[4..]);
  }

  // ---------------------------------------------------------------- b64toHex

  datatype KeyError = NotBase64 | WrongLength(n: nat)

  function B64ToHex(s: string): Result<string, KeyError> {
    match Decode(s)
    case None => Err(NotBase64)
    case Some(raw) => if |raw| != 32 then Err(WrongLength(|raw|)) else Ok(HexEncode(raw))
  }

  // What a reader of the hex form gets back in base64.
  function ReEncoded(hex: string): string {
    match HexDecode(hex)
    case None => ""
    case Some(raw) => Encode(raw)
  }

  // Every accepted key becomes 64 lowercase hex digits that stand for its 32 bytes, and reading
  // them back gives the same text exactly when it was canonical to begin with.
  lemma HexKeepsKey(s: string)
    ensures B64ToHex(s).Ok? <==> Decode(s).Some? && |Decode(s).value| == 32
    ensures B64ToHex(s).Ok? ==>
              var hex := B64ToHex(s).value;
              && |hex| == 64 && (forall i | 0 <= i < 64 :: IsHex(hex[i]))
              && HexDecode(hex) == Decode(s)
              && Canonical(ReEncoded(hex))
              && (ReEncoded(hex) == s <==> Canonical(s))
  {
    if Decode(s).Some? {
      var raw := Decode(s).value;
      HexRoundTrip(raw);
      DecodeEncode(raw);
      EncodeDecode(SkipBreaks(s));
      if Canonical(s) {
        CanonicalHasNoBreaks(s);
        NothingToSkip(s);
      }
      if Encode(raw) == s {
        CanonicalHasNoBreaks(s);
      }
    }
  }

  // Every 32-byte key has a text that is accepted, and the texts of other lengths are rejected.
  lemma EveryKeyIsAccepted(raw: seq<Byte>)
    ensures B64ToHex(Encode(raw)) ==
            if |raw| == 32 then Ok(HexEncode(raw)) else Err(WrongLength(|raw|))
  {
    DecodeEncode(raw);
    CanonicalHasNoBreaks(Encode(raw));
    NothingToSkip(Encode(raw));
  }
}
