/**
 Reading a UAPI message back: lines, each cut at its first equals sign. The message BuildUAPI
 prints is unambiguous for such a reader.
 */
module UapiReader {
  import opened Wrappers
  import opened Text
  import opened Settings
  import opened UapiFormat
  import Base64
  import ConfParser

  // ---------------------------------------------------------------- the reader

  function WireField(key: string): Option<Field> {
    if key == "private_key" then Some(PrivateKey)
    else if key == "listen_port" then Some(ListenPort)
    else if key == "jc" then Some(Jc)
    else if key == "jmin" then Some(Jmin)
    else if key == "jmax" then Some(Jmax)
    else if key == "s1" then Some(S1)
    else if key == "s2" then Some(S2)
    else if key == "s3" then Some(S3)
    else if key == "s4" then Some(S4)
    else if key == "h1" then Some(H1)
    else if key == "h2" then Some(H2)
    else if key == "h3" then Some(H3)
    else if key == "h4" then Some(H4)
    else if key == "i1" then Some(I1)
    else if key == "i2" then Some(I2)
    else if key == "i3" then Some(I3)
    else if key == "i4" then Some(I4)
    else if key == "i5" then Some(I5)
    else if key == "public_key" then Some(PeerPublicKey)
    else if key == "preshared_key" then Some(PeerPSK)
    else if key == "endpoint" then Some(Endpoint)
    else if key == "persistent_keepalive_interval" then Some(PersistentKA)
    else None
  }

  // A key arrives in hex and is kept as base64.
  function ReadField(c: Settings, f: Field, val: string): Settings {
    if IsInt(f) then SetInt(c, f, ConfParser.Scanned(val, GetInt(c, f)))
    else if IsKey(f) then SetString(c, f, Base64.ReEncoded(val))
    else SetString(c, f, val)
  }

  function ReadPair(c: Settings, key: string, val: string): Settings {
    if key == "allowed_ip" then c.(allowedIPs := c.allowedIPs + [val])
    else
      match WireField(key)
      case None => c
      case Some(f) => ReadField(c, f, val)
  }

  function ReadLine(c: Settings, line: string): Settings {
    match Cut(line, '=')
    case None => c
    case Some(p) => ReadPair(c, p.key, p.val)
  }

  function ReadLines(c: Settings, lines: seq<string>): Settings {
    if lines == [] then c else ReadLine(ReadLines(c, lines[..|lines| - 1]), lines[|lines| - 1])
  }

  function ReadMessage(text: string): Settings {
    ReadLines(EMPTY, Split(text, '\n'))
  }

  lemma {:induction false} ReadConcat(c: Settings, a: seq<string>, b: seq<string>)
    ensures ReadLines(c, a + b) == ReadLines(ReadLines(c, a), b)
    decreases |b|
  {
    if b == [] {
      assert a + b == a;
    } else {
      var n := |b| - 1;
      assert (a + b)[..|a + b| - 1] == a + b[..n];
      ReadConcat(c, a, b[..n]);
    }
  }

  // ---------------------------------------------------------------- what a reader should see

  datatype Val = I(i: GoInt) | S(s: string)

  function Get(c: Settings, f: Field): Val {
    if IsInt(f) then I(GetInt(c, f)) else S(GetString(c, f))
  }

  // The canonical base64 text of a key, or nothing for a text that is not a key.
  function CanonicalKey(s: string): string {
    match Base64.B64ToHex(s)
    case Ok(hex) => Base64.ReEncoded(hex)
    case Err(_) => ""
  }

  // A field as it survives the message: positive integers, strings, canonical keys.
  function Expect(c: Settings, f: Field): Val {
    if !OnWire(f) then Get(EMPTY, f)
    else if IsInt(f) then I(if GetInt(c, f) > 0 then GetInt(c, f) else 0)
    else if IsKey(f) then S(CanonicalKey(GetString(c, f)))
    else S(GetString(c, f))
  }

  // Everything but Address, DNS and MTU comes through, keys in canonical form.
  ghost predicate Recovers(c: Settings, d: Settings) {
    (forall f: Field :: Get(d, f) == Expect(c, f)) && d.allowedIPs == c.allowedIPs
  }

  // ---------------------------------------------------------------- one line

  lemma NamesHaveNoEquals(f: Field)
    requires OnWire(f)
    ensures Name(f) != "" && '=' !in Name(f)
  {
    hide Name;
    if IsInt(f) {
      IntNamesHaveNoEquals(f);
    } else {
      TextNamesHaveNoEquals(f);
    }
  }

  lemma IntNamesHaveNoEquals(f: Field)
    requires OnWire(f) && IsInt(f)
    ensures Name(f) != "" && '=' !in Name(f)
  {
  }

  lemma TextNamesHaveNoEquals(f: Field)
    requires OnWire(f) && !IsInt(f)
    ensures Name(f) != "" && '=' !in Name(f)
  {
  }

  lemma NamesHaveNoBreak(f: Field)
    requires OnWire(f)
    ensures '\n' !in Name(f)
  {
    hide Name, WireField;
    if IsInt(f) {
      IntNamesHaveNoBreak(f);
    } else {
      TextNamesHaveNoBreak(f);
    }
  }

  lemma IntNamesHaveNoBreak(f: Field)
    requires OnWire(f) && IsInt(f)
    ensures '\n' !in Name(f)
  {
  }

  lemma TextNamesHaveNoBreak(f: Field)
    requires OnWire(f) && !IsInt(f)
    ensures '\n' !in Name(f)
  {
  }

  lemma NamesAreDistinct(f: Field)
    requires OnWire(f)
    ensures WireField(Name(f)) == Some(f) && Name(f) != "allowed_ip"
  {
    hide Name, WireField;
    if IsInt(f) {
      IntNamesAreDistinct(f);
    } else {
      TextNamesAreDistinct(f);
    }
  }

  lemma IntNamesAreDistinct(f: Field)
    requires OnWire(f) && IsInt(f)
    ensures WireField(Name(f)) == Some(f) && Name(f) != "allowed_ip"
  {
  }

  lemma TextNamesAreDistinct(f: Field)
    requires OnWire(f) && !IsInt(f)
    ensures WireField(Name(f)) == Some(f) && Name(f) != "allowed_ip"
  {
  }

  lemma GetEmpty(f: Field)
    ensures Get(EMPTY, f) == if IsInt(f) then I(0) else S("")
  {
  }

  // Storing a field's text gives it its value and leaves the others alone.
  lemma ReadFieldEffect(d: Settings, f: Field, val: string, g: Field)
    ensures var d' := ReadField(d, f, val);
            && (g != f ==> Get(d', g) == Get(d, g))
            && Get(d', f) == (if IsInt(f) then I(ConfParser.Scanned(val, GetInt(d, f)))
                              else if IsKey(f) then S(Base64.ReEncoded(val)) else S(val))
            && d'.allowedIPs == d.allowedIPs
  {
    hide GetInt, GetString, SetInt, SetString;
    if IsInt(f) {
      var v := ConfParser.Scanned(val, GetInt(d, f));
      SetGetInt(d, f, v, f);
      SetIntKeeps(d, f, v);
      if IsInt(g) {
        SetGetInt(d, f, v, g);
      }
    } else {
      var v := if IsKey(f) then Base64.ReEncoded(val) else val;
      SetGetString(d, f, v, f);
      SetStringKeeps(d, f, v);
      if !IsInt(g) {
        SetGetString(d, f, v, g);
      }
    }
  }

  // The text written for a field stands for its value.
  lemma IntTextMeans(c: Settings, f: Field, v: GoInt)
    requires OnWire(f) && IsInt(f)
    ensures Expect(c, f) == if FieldText(c, f) == "" then I(0) else I(ConfParser.Scanned(FieldText(c, f), v))
  {
    hide GetInt, GetString, ScanInt;
    if GetInt(c, f) > 0 {
      ScanDecimal(GetInt(c, f));
    }
  }

  lemma StringTextMeans(c: Settings, f: Field)
    requires OnWire(f) && !IsInt(f)
    ensures Expect(c, f) == S(if IsKey(f) then Base64.ReEncoded(FieldText(c, f)) else FieldText(c, f))
  {
    hide GetInt, GetString, Base64.HexDecode, Base64.B64ToHex, Base64.Encode;
    NoKeyNoText();
  }

  lemma NoKeyNoText()
    ensures Base64.ReEncoded("") == ""
  {
  }

  // Reading the line of one field, if it has one.
  lemma ReadPut(c: Settings, d: Settings, f: Field, g: Field)
    requires OnWire(f) && Get(d, f) == Get(EMPTY, f)
    ensures var d' := ReadLines(d, ItemLines(c, Put(f)));
            && Get(d', f) == Expect(c, f)
            && (g != f ==> Get(d', g) == Get(d, g))
            && d'.allowedIPs == d.allowedIPs
  {
    hide Get, FieldText, Expect, ReadField, Name;
    GetEmpty(f);
    NoKeyNoText();
    if IsInt(f) {
      IntTextMeans(c, f, GetInt(d, f));
    } else {
      StringTextMeans(c, f);
    }
    if FieldText(c, f) != "" {
      ReadFieldEffect(d, f, FieldText(c, f), g);
      ReadNamed(d, f, FieldText(c, f));
    }
  }

  lemma ReadNamed(d: Settings, f: Field, text: string)
    requires OnWire(f)
    ensures ReadLines(d, [Name(f) + "=" + text]) == ReadField(d, f, text)
  {
    hide Name, WireField, Cut, ReadField;
    NamesHaveNoEquals(f);
    NamesAreDistinct(f);
    CutAtFirst(Name(f), '=', text);
    var line := Name(f) + "=" + text;
    assert [line][..0] == [];
  }

  // A literal line sets nothing.
  lemma FlagsAreNoFields()
    ensures WireField("replace_peers") == None && WireField("replace_allowed_ips") == None
    ensures '=' !in "replace_peers" && '=' !in "replace_allowed_ips"
  {
  }

  lemma ReadFlag(d: Settings, key: string)
    requires key == "replace_peers" || key == "replace_allowed_ips"
    ensures ReadLine(d, key + "=" + "true") == d
  {
    FlagsAreNoFields();
    CutAtFirst(key, '=', "true");
    hide Cut, WireField;
  }

  predicate IsFlag(line: string) {
    line == "replace_peers" + "=" + "true" || line == "replace_allowed_ips" + "=" + "true"
  }

  lemma ReadLiteral(d: Settings, line: string)
    requires IsFlag(line)
    ensures ReadLine(d, line) == d
  {
    ReadFlag(d, "replace_peers");
    ReadFlag(d, "replace_allowed_ips");
    hide ReadLine;
  }

  // ---------------------------------------------------------------- all lines

  // Each field is listed once, and everything else is a flag.
  ghost predicate Legible(items: seq<Item>) {
    && Printable(items)
    && (forall i | 0 <= i < |items| && items[i].Literal? :: IsFlag(items[i].line))
    && (forall i, j | 0 <= i < j < |items| && items[j].Put? :: items[i] != items[j])
  }

  lemma FlagsLegible(i: nat)
    requires i < |ITEMS| && ITEMS[i].Literal?
    ensures IsFlag(ITEMS[i].line)
  {
    assert "replace_peers" + "=" + "true" == "replace_peers=true";
    assert "replace_allowed_ips" + "=" + "true" == "replace_allowed_ips=true";
  }

  lemma ItemsOnce(i: nat, j: nat)
    requires i < j < |ITEMS| && ITEMS[j].Put?
    ensures ITEMS[i] != ITEMS[j]
  {
  }

  lemma ItemsLegible()
    ensures Legible(ITEMS)
  {
    ItemsPrintable();
    forall i | 0 <= i < |ITEMS| && ITEMS[i].Literal?
      ensures IsFlag(ITEMS[i].line)
    {
      FlagsLegible(i);
    }
    forall i, j | 0 <= i < j < |ITEMS| && ITEMS[j].Put?
      ensures ITEMS[i] != ITEMS[j]
    {
      ItemsOnce(i, j);
    }
  }

  // One more item.
  lemma ReadItem(c: Settings, d: Settings, item: Item, g: Field)
    requires item.Put? ==> OnWire(item.f) && Get(d, item.f) == Get(EMPTY, item.f)
    requires item.Literal? ==> IsFlag(item.line)
    ensures var d' := ReadLines(d, ItemLines(c, item));
            && Get(d', g) == (if item == Put(g) then Expect(c, g) else Get(d, g))
            && d'.allowedIPs == d.allowedIPs
  {
    match item
    case Literal(line) =>
      ReadLiteral(d, line);
      assert ReadLines(d, [line]) == ReadLine(d, line) by {
        assert [line][..0] == [];
      }
    case Put(f) => ReadPut(c, d, f, g);
  }

  lemma LegiblePrefix(items: seq<Item>)
    requires Legible(items) && items != []
    ensures var n := |items| - 1;
            && Legible(items[..n]) && Printable(items[..n])
            && (items[n].Put? ==> OnWire(items[n].f) && items[n] !in items[..n])
            && (items[n].Literal? ==> IsFlag(items[n].line))
            && (forall x :: x in items <==> x in items[..n] || x == items[n])
  {
    var n := |items| - 1;
    hide IsFlag, OnWire;
    assert items == items[..n] + [items[n]];
  }

  lemma ItemsStep(c: Settings, items: seq<Item>)
    requires Printable(items) && items != []
    ensures var n := |items| - 1;
            && Printable(items[..n])
            && ReadLines(EMPTY, ItemsLines(c, items))
               == ReadLines(ReadLines(EMPTY, ItemsLines(c, items[..n])), ItemLines(c, items[n]))
  {
    var n := |items| - 1;
    ReadConcat(EMPTY, ItemsLines(c, items[..n]), ItemLines(c, items[n]));
  }

  // The items have been read: their fields are in, the others still empty.
  lemma {:induction false} ReadItems(c: Settings, items: seq<Item>, g: Field)
    requires Legible(items)
    ensures var d := ReadLines(EMPTY, ItemsLines(c, items));
            && Get(d, g) == (if Put(g) in items then Expect(c, g) else Get(EMPTY, g))
            && d.allowedIPs == []
  {
    if items != [] {
      var n := |items| - 1;
      LegiblePrefix(items);
      ItemsStep(c, items);
      hide Legible, Get, Expect, ItemLines, ItemsLines, ReadLines, OnWire, IsFlag;
      ReadItems(c, items[..n], g);
      if items[n].Put? {
        ReadItems(c, items[..n], items[n].f);
      }
      ReadItem(c, ReadLines(EMPTY, ItemsLines(c, items[..n])), items[n], g);
    }
  }

  lemma EveryFieldListed(f: Field)
    ensures OnWire(f) <==> Put(f) in ITEMS
  {
    ItemsPrintable();
  }

  lemma {:induction false} ReadAddresses(d: Settings, ips: seq<string>)
    ensures ReadLines(d, AddressLines(ips)) == d.(allowedIPs := d.allowedIPs + ips)
  {
    if ips == [] {
      assert d.allowedIPs + ips == d.allowedIPs;
    } else {
      var n := |ips| - 1;
      ReadAddresses(d, ips[..n]);
      var line := "allowed_ip=" + ips[n];
      assert line == "allowed_ip" + ['='] + ips[n];
      CutAtFirst("allowed_ip", '=', ips[n]);
      assert AddressLines(ips)[..|AddressLines(ips)| - 1] == AddressLines(ips[..n]);
      assert d.allowedIPs + ips[..n] + [ips[n]] == d.allowedIPs + ips;
    }
  }

  lemma LinesRecover(c: Settings)
    ensures Recovers(c, ReadLines(EMPTY, Lines(c)))
  {
    ItemsLegible();
    ReadConcat(EMPTY, ItemsLines(c, ITEMS), AddressLines(c.allowedIPs));
    var d := ReadLines(EMPTY, ItemsLines(c, ITEMS));
    ReadAddresses(d, c.allowedIPs);
    ReadItems(c, ITEMS, PrivateKey);
    forall f: Field
      ensures Get(d.(allowedIPs := d.allowedIPs + c.allowedIPs), f) == Expect(c, f)
    {
      ReadItems(c, ITEMS, f);
      EveryFieldListed(f);
      ConfParser.ListKeepsFields(d, d.allowedIPs + c.allowedIPs, f);
    }
  }

  // ---------------------------------------------------------------- splitting the text

  lemma {:induction false} SplitUnlines(lines: seq<string>)
    requires ConfParser.OneLineEach(lines)
    ensures Split(Unlines(lines), '\n') == lines + [""]
  {
    if lines != [] {
      SplitUnlines(lines[1..]);
      assert lines == [lines[0]] + lines[1..];
      UnlinesConcat([lines[0]], lines[1..]);
      UnlinesOne(lines[0]);
      SplitFirst(lines[0], '\n', Unlines(lines[1..]));
    }
  }

  // Each line of a message is one line, and none is empty.
  ghost predicate GoodLines(lines: seq<string>) {
    ConfParser.OneLineEach(lines) && forall i | 0 <= i < |lines| :: lines[i] != ""
  }

  lemma GoodConcat(a: seq<string>, b: seq<string>)
    requires GoodLines(a) && GoodLines(b)
    ensures GoodLines(a + b)
  {
  }

  lemma DigitsNoBreak(s: string)
    requires forall i | 0 <= i < |s| :: IsDigit(s[i]) || Base64.IsHex(s[i])
    ensures '\n' !in s
  {
  }

  lemma GoodItem(c: Settings, i: nat)
    requires i < |ITEMS| && Printable(ITEMS) && ConfParser.OneLine(c)
    ensures GoodLines(ItemLines(c, ITEMS[i]))
  {
    match ITEMS[i]
    case Literal(line) => LiteralNoBreak(i);
    case Put(f) =>
      NamesHaveNoEquals(f);
      NamesHaveNoBreak(f);
      TextNoBreak(c, f);
      hide Name, FieldText;
      var line := Name(f) + "=" + FieldText(c, f);
      assert '\n' !in line && line != "";
  }

  lemma LiteralNoBreak(i: nat)
    requires i < |ITEMS| && ITEMS[i].Literal?
    ensures ITEMS[i].line != "" && '\n' !in ITEMS[i].line
  {
  }

  lemma TextNoBreak(c: Settings, f: Field)
    requires ConfParser.OneLine(c)
    ensures '\n' !in FieldText(c, f)
  {
    hide GetInt, GetString;
    if IsInt(f) {
      if GetInt(c, f) > 0 {
        DigitsNoBreak(Decimal(GetInt(c, f)));
      }
    } else if IsKey(f) {
      Base64.HexKeepsKey(GetString(c, f));
      DigitsNoBreak(FieldText(c, f));
    }
  }

  lemma {:induction false} GoodItems(c: Settings, k: nat)
    requires k <= |ITEMS| && Printable(ITEMS) && ConfParser.OneLine(c)
    ensures GoodLines(ItemsLines(c, ITEMS[..k]))
  {
    if k > 0 {
      GoodItems(c, k - 1);
      GoodItem(c, k - 1);
      assert ITEMS[..k][..k - 1] == ITEMS[..k - 1];
      GoodConcat(ItemsLines(c, ITEMS[..k - 1]), ItemLines(c, ITEMS[k - 1]));
    }
  }

  lemma {:induction false} GoodAddresses(ips: seq<string>)
    requires ConfParser.OneLineEach(ips)
    ensures GoodLines(AddressLines(ips))
  {
    if ips != [] {
      var n := |ips| - 1;
      GoodAddresses(ips[..n]);
      assert '\n' !in "allowed_ip=";
      GoodConcat(AddressLines(ips[..n]), ["allowed_ip=" + ips[n]]);
    }
  }

  lemma AllLinesGood(c: Settings)
    requires ConfParser.OneLine(c)
    ensures GoodLines(Lines(c))
  {
    ItemsPrintable();
    GoodItems(c, |ITEMS|);
    assert ITEMS[..|ITEMS|] == ITEMS;
    GoodAddresses(c.allowedIPs);
    GoodConcat(ItemsLines(c, ITEMS), AddressLines(c.allowedIPs));
  }

  // ---------------------------------------------------------------- the round trip

  // Whatever the configuration, as long as no value spans lines: the message, split into lines and
  // cut at the first equals signs, gives back everything it is meant to carry.
  lemma MessageRecovers(c: Settings)
    requires ConfParser.OneLine(c)
    ensures Build(c).Ok? ==> Recovers(c, ReadMessage(Build(c).value))
  {
    AllLinesGood(c);
    SplitUnlines(Lines(c));
    LinesRecover(c);
    ReadConcat(EMPTY, Lines(c), [""]);
    var d := ReadLines(EMPTY, Lines(c));
    assert ReadLines(d, [""]) == ReadLine(d, "") by {
      assert [""][..0] == [];
    }
  }

  // So two configurations with the same message agree on everything that is carried.
  lemma SameMessageSameSettings(c: Settings, d: Settings)
    requires ConfParser.OneLine(c) && ConfParser.OneLine(d)
    ensures Build(c).Ok? && Build(c) == Build(d) ==>
              (forall f: Field :: Expect(c, f) == Expect(d, f)) && c.allowedIPs == d.allowedIPs
  {
    hide Get, Expect, ReadMessage, Build, ConfParser.OneLine;
    MessageRecovers(c);
    MessageRecovers(d);
    if Build(c).Ok? && Build(c) == Build(d) {
      var e := ReadMessage(Build(c).value);
      forall f: Field
        ensures Expect(c, f) == Expect(d, f)
      {
        assert Get(e, f) == Expect(c, f);
      }
    }
  }

  // The whole pipeline: any file that parses and has decodable keys is carried over unambiguously.
  lemma FileRecovers(data: string)
    ensures var c := ConfParser.Parse(data);
            c.Ok? && Build(c.value).Ok? ==> Recovers(c.value, ReadMessage(Build(c.value).value))
  {
    hide ConfParser.Parse, ConfParser.OneLine, Build, ReadMessage, Recovers;
    if ConfParser.Parse(data).Ok? {
      ConfParser.ParsedIsOneLine(data);
      MessageRecovers(ConfParser.Parse(data).value);
    }
  }
}
