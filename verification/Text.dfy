/** The pieces of Go's strings and fmt packages that the config pipeline is written with. */
module Text {
  import opened Wrappers

  // Go's int on a 64-bit machine.
  type GoInt = x: int | -0x8000_0000_0000_0000 <= x < 0x8000_0000_0000_0000

  // ---------------------------------------------------------------- strings.Split, strings.Cut

  function Split(s: string, sep: char): (r: seq<string>)
    ensures |r| >= 1
  {
    if s == "" then [""]
    else
      var r := Split(s[1..], sep);
      if s[0] == sep then [""] + r else [[s[0]] + r[0]] + r[1..]
  }

  lemma {:induction false} SplitPieces(s: string, sep: char)
    ensures forall i | 0 <= i < |Split(s, sep)| :: sep !in Split(s, sep)[i]
    ensures forall i, c | 0 <= i < |Split(s, sep)| && c in Split(s, sep)[i] :: c in s
  {
    if s != "" {
      SplitPieces(s[1..], sep);
      var r := Split(s[1..], sep);
      assert forall c :: c in s[1..] ==> c in s;
      if s[0] == sep {
        assert forall i | 1 <= i < |Split(s, sep)| :: Split(s, sep)[i] == r[i - 1];
      } else {
        assert forall i | 1 <= i < |Split(s, sep)| :: Split(s, sep)[i] == r[i];
      }
    }
  }

  lemma {:induction false} SplitOne(a: string, sep: char)
    requires sep !in a
    ensures Split(a, sep) == [a]
  {
    if a != "" {
      SplitOne(a[1..], sep);
      assert [a[0]] + a[1..] == a;
    }
  }

  lemma {:induction false} SplitFirst(a: string, sep: char, rest: string)
    requires sep !in a
    ensures Split(a + [sep] + rest, sep) == [a] + Split(rest, sep)
  {
    var s := a + [sep] + rest;
    if a == "" {
      assert s[1..] == rest;
    } else {
      SplitFirst(a[1..], sep, rest);
      assert s[1..] == a[1..] + [sep] + rest;
      assert [a[0]] + a[1..] == a;
    }
  }

  datatype Pair = Pair(key: string, val: string)

  // Everything before and after the first separator.
  function Cut(s: string, sep: char): Option<Pair> {
    if s == "" then None
    else if s[0] == sep then Some(Pair("", s[1..]))
    else match Cut(s[1..], sep)
      case None => None
      case Some(p) => Some(Pair([s[0]] + p.key, p.val))
  }

  lemma {:induction false} CutAtFirst(key: string, sep: char, val: string)
    requires sep !in key
    ensures Cut(key + [sep] + val, sep) == Some(Pair(key, val))
  {
    var s := key + [sep] + val;
    if key == "" {
      assert s[1..] == val;
    } else {
      CutAtFirst(key[1..], sep, val);
      assert s[1..] == key[1..] + [sep] + val;
      assert [key[0]] + key[1..] == key;
    }
  }

  lemma {:induction false} CutParts(s: string, sep: char)
    ensures Cut(s, sep).None? <==> sep !in s
    ensures Cut(s, sep).Some? ==>
              forall c :: c in Cut(s, sep).value.key || c in Cut(s, sep).value.val ==> c in s
  {
    if s != "" {
      CutParts(s[1..], sep);
      assert forall c :: c in s <==> c == s[0] || c in s[1..];
    }
  }

  // ---------------------------------------------------------------- strings.TrimSpace, strings.ToLower

  // unicode.IsSpace
  predicate IsSpace(c: char) {
    var n := c as int;
    || 9 <= n <= 13 || n == 32 || n == 0x85 || n == 0xA0 || n == 0x1680
    || 0x2000 <= n <= 0x200A || n == 0x2028 || n == 0x2029 || n == 0x202F || n == 0x205F || n == 0x3000
  }

  function TrimLeft(s: string): string {
    if s != "" && IsSpace(s[0]) then TrimLeft(s[1..]) else s
  }

  function TrimRight(s: string): string {
    if s != "" && IsSpace(s[|s| - 1]) then TrimRight(s[..|s| - 1]) else s
  }

  function TrimSpace(s: string): string {
    TrimRight(TrimLeft(s))
  }

  lemma {:induction false} TrimLeftParts(s: string)
    ensures forall c :: c in TrimLeft(s) ==> c in s
  {
    if s != "" && IsSpace(s[0]) {
      TrimLeftParts(s[1..]);
    }
  }

  lemma {:induction false} TrimRightParts(s: string)
    ensures forall c :: c in TrimRight(s) ==> c in s
  {
    if s != "" && IsSpace(s[|s| - 1]) {
      TrimRightParts(s[..|s| - 1]);
    }
  }

  lemma TrimParts(s: string)
    ensures forall c :: c in TrimSpace(s) ==> c in s
  {
    TrimLeftParts(s);
    TrimRightParts(TrimLeft(s));
  }

  // The characters with an ASCII lower case: A to Z, dotted capital I and the Kelvin sign. Any other
  // character is its own lower case or maps outside ASCII, which makes no difference to a
  // comparison with an ASCII word.
  function LowerChar(c: char): char {
    if 'A' <= c <= 'Z' then (c as int + 32) as char
    else if c as int == 0x130 then 'i'
    else if c as int == 0x212A then 'k'
    else c
  }

  function ToLower(s: string): string {
    if s == "" then "" else [LowerChar(s[0])] + ToLower(s[1..])
  }

  // ---------------------------------------------------------------- %d, out and in

  function Digit(d: int): char
    requires 0 <= d < 10
  {
    (d + 48) as char
  }

  predicate IsDigit(c: char) {
    '0' <= c <= '9'
  }

  // What Printf prints for %d, for the positive values that are printed.
  function Decimal(n: nat): (s: string)
    ensures s != "" && forall i | 0 <= i < |s| :: IsDigit(s[i])
  {
    if n < 10 then [Digit(n)] else Decimal(n / 10) + [Digit(n % 10)]
  }

  function Value(digits: string): nat
    requires forall i | 0 <= i < |digits| :: IsDigit(digits[i])
  {
    if digits == "" then 0
    else
      assert IsDigit(digits[|digits| - 1]);
      Value(digits[..|digits| - 1]) * 10 + (digits[|digits| - 1] as int - 48)
  }

  function DigitPrefix(s: string): (p: string)
    ensures forall i | 0 <= i < |p| :: IsDigit(p[i])
  {
    if s != "" && IsDigit(s[0]) then [s[0]] + DigitPrefix(s[1..]) else ""
  }

  // Sscanf("%d") into an int: leading space, an optional sign and the longest run of digits after
  // it. Without a digit, or out of range, the variable keeps its value.
  function ScanInt(text: string): Option<GoInt> {
    var s := TrimLeft(text);
    var negative := s != "" && s[0] == '-';
    var signed := s != "" && (s[0] == '-' || s[0] == '+');
    var digits := DigitPrefix(if signed then s[1..] else s);
    if digits == "" then None
    else
      var n: int := Value(digits);
      var v := if negative then -n else n;
      if -0x8000_0000_0000_0000 <= v < 0x8000_0000_0000_0000 then Some(v) else None
  }

  lemma {:induction false} DigitPrefixAll(s: string)
    requires forall i | 0 <= i < |s| :: IsDigit(s[i])
    ensures DigitPrefix(s) == s
  {
    if s != "" {
      DigitPrefixAll(s[1..]);
    }
  }

  lemma {:induction false} ValueOfDecimal(n: nat)
    ensures Value(Decimal(n)) == n
  {
    if n >= 10 {
      ValueOfDecimal(n / 10);
      var s := Decimal(n);
      assert s[..|s| - 1] == Decimal(n / 10);
    }
  }

  // A printed integer scans back, for every non-negative value that an int can hold.
  lemma ScanDecimal(n: nat)
    requires n < 0x8000_0000_0000_0000
    ensures ScanInt(Decimal(n)) == Some(n)
  {
    hide Decimal, Value, DigitPrefix;
    DigitPrefixAll(Decimal(n));
    ValueOfDecimal(n);
    assert IsDigit(Decimal(n)[0]);
  }

  function Pow10(n: nat): nat {
    if n == 0 then 1 else Pow10(n - 1) * 10
  }

  // Decimal notation read from the left: the first digit counts most.
  function Positional(s: string): int
    requires forall i | 0 <= i < |s| :: IsDigit(s[i])
  {
    if s == "" then 0
    else
      assert IsDigit(s[0]);
      (s[0] as int - '0' as int) * Pow10(|s| - 1) + Positional(s[1..])
  }

  lemma {:induction false} PositionalSnoc(s: string, c: char)
    requires forall i | 0 <= i < |s| :: IsDigit(s[i])
    requires IsDigit(c)
    ensures Positional(s + [c]) == Positional(s) * 10 + (c as int - '0' as int)
  {
    if s == "" {
      assert s + [c] == [c] && [c][1..] == "";
      assert Pow10(0) == 1 && Positional("") == 0;
      assert Positional([c]) == (c as int - '0' as int) * Pow10(0) + Positional([c][1..]);
    } else {
      var d := s[0] as int - '0' as int;
      PositionalSnoc(s[1..], c);
      assert (s + [c])[1..] == s[1..] + [c];
      assert d * Pow10(|s|) == d * Pow10(|s| - 1) * 10;
    }
  }

  // What %d prints denotes the number, without a leading zero.
  lemma {:induction false} DecimalDenotes(n: nat)
    ensures Positional(Decimal(n)) == n
    ensures n > 0 ==> Decimal(n)[0] != '0'
  {
    if n < 10 {
      assert Decimal(n) == "" + [Digit(n)];
      PositionalSnoc("", Digit(n));
    } else {
      DecimalDenotes(n / 10);
      PositionalSnoc(Decimal(n / 10), Digit(n % 10));
    }
  }

  // Any int in decimal notation.
  function Shown(v: GoInt): (s: string)
    ensures s != "" && forall i | 0 <= i < |s| :: IsDigit(s[i]) || s[i] == '-'
  {
    var n: int := v;
    if n < 0 then "-" + Decimal(-n) else Decimal(n)
  }

  lemma ScanShown(v: GoInt)
    ensures ScanInt(Shown(v)) == Some(v)
  {
    hide Decimal, Value, DigitPrefix;
    var n: int := v;
    if n < 0 {
      var digits := Decimal(-n);
      assert Shown(v)[0] == '-' && Shown(v)[1..] == digits;
      DigitPrefixAll(digits);
      ValueOfDecimal(-n);
      assert TrimLeft(Shown(v)) == Shown(v);
    } else {
      ScanDecimal(n);
    }
  }
}
