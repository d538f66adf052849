/**
 BuildUAPI: the configuration as a UAPI set message, and what a key=value reader makes of it
 (pkg/amnezia/config.go; the reading discipline is that of pkg/amnezia/uapi.go).
 */
module UapiFormat {
  import opened Wrappers
  import opened Text
  import opened Settings
  import Base64

  // ---------------------------------------------------------------- the lines of a message

  // Address, DNS and MTU are not part of the message.
  predicate OnWire(f: Field) {
    f != Address && f != DNS && f != MTU
  }

  predicate IsKey(f: Field) {
    f == PrivateKey || f == PeerPublicKey || f == PeerPSK
  }

  function Name(f: Field): string
    requires OnWire(f)
  {
    match f
    case PrivateKey => "private_key"
    case ListenPort => "listen_port"
    case Jc => "jc"
    case Jmin => "jmin"
    case Jmax => "jmax"
    case S1 => "s1"
    case S2 => "s2"
    case S3 => "s3"
    case S4 => "s4"
    case H1 => "h1"
    case H2 => "h2"
    case H3 => "h3"
    case H4 => "h4"
    case I1 => "i1"
    case I2 => "i2"
    case I3 => "i3"
    case I4 => "i4"
    case I5 => "i5"
    case PeerPublicKey => "public_key"
    case PeerPSK => "preshared_key"
    case Endpoint => "endpoint"
    case PersistentKA => "persistent_keepalive_interval"
  }

  datatype Item = Put(f: Field) | Literal(line: string)

  const ITEMS: seq<Item> := [
    Put(PrivateKey), Put(ListenPort), Literal("replace_peers=true"), Put(Jc), Put(Jmin), Put(Jmax),
    Put(S1), Put(S2), Put(S3), Put(S4), Put(H1), Put(H2), Put(H3), Put(H4), Put(I1), Put(I2), Put(I3),
    Put(I4), Put(I5), Put(PeerPublicKey), Put(PeerPSK), Put(Endpoint), Put(PersistentKA),
    Literal("replace_allowed_ips=true")]

  // The text of a field: keys in hex, integers in decimal, strings as they are. An unset string,
  // a key that does not decode, or an integer that is not positive has none.
  function FieldText(c: Settings, f: Field): string {
    if IsInt(f) then
      if GetInt(c, f) > 0 then Decimal(GetInt(c, f)) else ""
    else if IsKey(f) then
      match Base64.B64ToHex(GetString(c, f))
      case Ok(hex) => hex
      case Err(_) => ""
    else GetString(c, f)
  }

  function ItemLines(c: Settings, item: Item): seq<string>
    requires item.Put? ==> OnWire(item.f)
  {
    match item
    case Literal(line) => [line]
    case Put(f) => if FieldText(c, f) != "" then [Name(f) + "=" + FieldText(c, f)] else []
  }

  ghost predicate Printable(items: seq<Item>) {
    forall i | 0 <= i < |items| && items[i].Put? :: OnWire(items[i].f)
  }

  function ItemsLines(c: Settings, items: seq<Item>): seq<string>
    requires Printable(items)
  {
    if items == [] then []
    else ItemsLines(c, items[..|items| - 1]) + ItemLines(c, items[|items| - 1])
  }

  function AddressLines(ips: seq<string>): seq<string> {
    if ips == [] then [] else AddressLines(ips[..|ips| - 1]) + ["allowed_ip=" + ips[|ips| - 1]]
  }

  lemma ItemsPrintable()
    ensures Printable(ITEMS)
  {
  }

  function Lines(c: Settings): seq<string> {
    ItemsPrintable();
    ItemsLines(c, ITEMS) + AddressLines(c.allowedIPs)
  }

  function Unlines(lines: seq<string>): string {
    if lines == [] then "" else Unlines(lines[..|lines| - 1]) + lines[|lines| - 1] + "\n"
  }

  datatype BuildError = BadKey(f: Field, e: Base64.KeyError)

  function KeyCheck(c: Settings, f: Field): Option<BuildError>
    requires IsKey(f)
  {
    match Base64.B64ToHex(GetString(c, f))
    case Ok(_) => None
    case Err(e) => Some(BadKey(f, e))
  }

  // The first key that does not re-encode; an absent preshared key is not looked at.
  function FirstError(c: Settings): Option<BuildError> {
    if KeyCheck(c, PrivateKey).Some? then KeyCheck(c, PrivateKey)
    else if KeyCheck(c, PeerPublicKey).Some? then KeyCheck(c, PeerPublicKey)
    else if c.peerPSK != "" then KeyCheck(c, PeerPSK)
    else None
  }

  function Build(c: Settings): Result<string, BuildError> {
    match FirstError(c)
    case Some(e) => Err(e)
    case None => Ok(Unlines(Lines(c)))
  }

  // A build fails exactly on a key that does not re-encode, an unset preshared key aside, and names the
  // first of the three in the order of the message.
  lemma BuildFails(c: Settings)
    ensures Build(c).Ok? <==>
            && Base64.B64ToHex(c.privateKey).Ok?
            && Base64.B64ToHex(c.peerPublicKey).Ok?
            && (c.peerPSK == "" || Base64.B64ToHex(c.peerPSK).Ok?)
    ensures Build(c).Err? ==>
              Build(c).error ==
              if Base64.B64ToHex(c.privateKey).Err? then BadKey(PrivateKey, Base64.B64ToHex(c.privateKey).error)
              else if Base64.B64ToHex(c.peerPublicKey).Err?
              then BadKey(PeerPublicKey, Base64.B64ToHex(c.peerPublicKey).error)
              else BadKey(PeerPSK, Base64.B64ToHex(c.peerPSK).error)
  {
    hide Base64.B64ToHex, Lines, Unlines;
  }

  // ---------------------------------------------------------------- the message, line by line

  function Number(v: GoInt): string {
    if v > 0 then Decimal(v) else ""
  }

  function Hex(key: string): string {
    match Base64.B64ToHex(key)
    case Ok(hex) => hex
    case Err(_) => ""
  }

  // The k-th key and value: the device part, and from 19 on the peer part, which its public key opens.
  function PairAt(c: Settings, k: nat): Pair
    requires k < 24
  {
    match k
    case 0 => Pair("private_key", Hex(c.privateKey))
    case 1 => Pair("listen_port", Number(c.listenPort))
    case 2 => Pair("replace_peers", "true")
    case 3 => Pair("jc", Number(c.jc))
    case 4 => Pair("jmin", Number(c.jmin))
    case 5 => Pair("jmax", Number(c.jmax))
    case 6 => Pair("s1", Number(c.s1))
    case 7 => Pair("s2", Number(c.s2))
    case 8 => Pair("s3", Number(c.s3))
    case 9 => Pair("s4", Number(c.s4))
    case 10 => Pair("h1", c.h1)
    case 11 => Pair("h2", c.h2)
    case 12 => Pair("h3", c.h3)
    case 13 => Pair("h4", c.h4)
    case 14 => Pair("i1", c.i1)
    case 15 => Pair("i2", c.i2)
    case 16 => Pair("i3", c.i3)
    case 17 => Pair("i4", c.i4)
    case 18 => Pair("i5", c.i5)
    case 19 => Pair("public_key", Hex(c.peerPublicKey))
    case 20 => Pair("preshared_key", Hex(c.peerPSK))
    case 21 => Pair("endpoint", c.endpoint)
    case 22 => Pair("persistent_keepalive_interval", Number(c.persistentKA))
    case 23 => Pair("replace_allowed_ips", "true")
  }

  // The pairs from one position to another, without the empty ones, as lines.
  function PairsBetween(c: Settings, from: nat, to: nat): seq<string>
    requires from <= to <= 24
  {
    if from == to then [] else PairsBetween(c, from, to - 1) + PairLine(PairAt(c, to - 1))
  }

  // A pair is a line unless its value is empty.
  function PairLine(p: Pair): seq<string> {
    if p.val != "" then [p.key + "=" + p.val] else []
  }

  // Item k prints this pair.
  ghost predicate Prints(c: Settings, k: nat, p: Pair) {
    && k < |ITEMS|
    && (ITEMS[k].Put? ==> OnWire(ITEMS[k].f))
    && ItemLines(c, ITEMS[k]) == PairLine(p)
  }

  lemma PrintsInt(c: Settings, k: nat, f: Field, key: string, v: GoInt)
    requires k < |ITEMS| && ITEMS[k] == Put(f) && OnWire(f) && IsInt(f) && Name(f) == key && GetInt(c, f) == v
    ensures Prints(c, k, Pair(key, Number(v)))
  {
  }

  lemma PrintsStr(c: Settings, k: nat, f: Field, key: string, v: string)
    requires k < |ITEMS| && ITEMS[k] == Put(f) && OnWire(f) && !IsInt(f) && !IsKey(f) && Name(f) == key
    requires GetString(c, f) == v
    ensures Prints(c, k, Pair(key, v))
  {
  }

  lemma PrintsKey(c: Settings, k: nat, f: Field, key: string, v: string)
    requires k < |ITEMS| && ITEMS[k] == Put(f) && OnWire(f) && IsKey(f) && Name(f) == key && GetString(c, f) == v
    ensures Prints(c, k, Pair(key, Hex(v)))
  {
    hide Base64.B64ToHex;
  }

  lemma PrintsFlag(c: Settings, k: nat, key: string)
    requires k < |ITEMS| && ITEMS[k] == Literal(key + "=" + "true")
    ensures Prints(c, k, Pair(key, "true"))
  {
  }

  lemma PrintsInterface(c: Settings, k: nat)
    requires 0 <= k < 3
    ensures Prints(c, k, PairAt(c, k))
  {
    hide Hex, Number, Prints;
    match k
    case 0 => PrintsKey(c, 0, PrivateKey, "private_key", c.privateKey);
    case 1 => PrintsInt(c, 1, ListenPort, "listen_port", c.listenPort);
    case 2 =>
      assert "replace_peers" + "=" + "true" == "replace_peers=true";
      PrintsFlag(c, 2, "replace_peers");
  }

  lemma PrintsJunk(c: Settings, k: nat)
    requires 3 <= k < 6
    ensures Prints(c, k, PairAt(c, k))
  {
    hide Hex, Number, Prints;
    match k
    case 3 => PrintsInt(c, 3, Jc, "jc", c.jc);
    case 4 => PrintsInt(c, 4, Jmin, "jmin", c.jmin);
    case 5 => PrintsInt(c, 5, Jmax, "jmax", c.jmax);
  }

  lemma PrintsSizes(c: Settings, k: nat)
    requires 6 <= k < 10
    ensures Prints(c, k, PairAt(c, k))
  {
    hide Hex, Number, Prints;
    match k
    case 6 => PrintsInt(c, 6, S1, "s1", c.s1);
    case 7 => PrintsInt(c, 7, S2, "s2", c.s2);
    case 8 => PrintsInt(c, 8, S3, "s3", c.s3);
    case 9 => PrintsInt(c, 9, S4, "s4", c.s4);
  }

  lemma PrintsHeaders(c: Settings, k: nat)
    requires 10 <= k < 14
    ensures Prints(c, k, PairAt(c, k))
  {
    hide Hex, Number, Prints;
    match k
    case 10 => PrintsStr(c, 10, H1, "h1", c.h1);
    case 11 => PrintsStr(c, 11, H2, "h2", c.h2);
    case 12 => PrintsStr(c, 12, H3, "h3", c.h3);
    case 13 => PrintsStr(c, 13, H4, "h4", c.h4);
  }

  lemma PrintsPackets(c: Settings, k: nat)
    requires 14 <= k < 19
    ensures Prints(c, k, PairAt(c, k))
  {
    hide Hex, Number, Prints;
    match k
    case 14 => PrintsStr(c, 14, I1, "i1", c.i1);
    case 15 => PrintsStr(c, 15, I2, "i2", c.i2);
    case 16 => PrintsStr(c, 16, I3, "i3", c.i3);
    case 17 => PrintsStr(c, 17, I4, "i4", c.i4);
    case 18 => PrintsStr(c, 18, I5, "i5", c.i5);
  }

  lemma PrintsPeer(c: Settings, k: nat)
    requires 19 <= k < 24
    ensures Prints(c, k, PairAt(c, k))
  {
    hide Hex, Number, Prints;
    match k
    case 19 => PrintsKey(c, 19, PeerPublicKey, "public_key", c.peerPublicKey);
    case 20 => PrintsKey(c, 20, PeerPSK, "preshared_key", c.peerPSK);
    case 21 => PrintsStr(c, 21, Endpoint, "endpoint", c.endpoint);
    case 22 => PrintsInt(c, 22, PersistentKA, "persistent_keepalive_interval", c.persistentKA);
    case 23 =>
      assert "replace_allowed_ips" + "=" + "true" == "replace_allowed_ips=true";
      PrintsFlag(c, 23, "replace_allowed_ips");
  }

  lemma AllPrint(c: Settings, k: nat)
    requires k < 24
    ensures Prints(c, k, PairAt(c, k))
  {
    hide Prints, PairAt;
    if k < 3 {
      PrintsInterface(c, k);
    } else if k < 6 {
      PrintsJunk(c, k);
    } else if k < 10 {
      PrintsSizes(c, k);
    } else if k < 14 {
      PrintsHeaders(c, k);
    } else if k < 19 {
      PrintsPackets(c, k);
    } else {
      PrintsPeer(c, k);
    }
  }

  lemma {:induction false} ItemsPrint(c: Settings, k: nat)
    requires Printable(ITEMS) && k <= 24 <= |ITEMS|
    ensures ItemsLines(c, ITEMS[..k]) == PairsBetween(c, 0, k)
  {
    hide ItemLines, PairLine, PairAt;
    if k > 0 {
      ItemsPrint(c, k - 1);
      AllPrint(c, k - 1);
      assert ITEMS[..k][..k - 1] == ITEMS[..k - 1];
    }
  }

  lemma {:induction false} BetweenSplits(c: Settings, from: nat, mid: nat, to: nat)
    requires from <= mid <= to <= 24
    ensures PairsBetween(c, from, to) == PairsBetween(c, from, mid) + PairsBetween(c, mid, to)
  {
    hide PairLine, PairAt;
    if mid < to {
      BetweenSplits(c, from, mid, to - 1);
    }
  }

  // The device part of the message, and the peer part.
  function DeviceLines(c: Settings): seq<string> {
    PairsBetween(c, 0, 19)
  }

  function PeerLines(c: Settings): seq<string> {
    PairsBetween(c, 19, 24) + AddressLines(c.allowedIPs)
  }

  lemma LinesAre(c: Settings)
    ensures Lines(c) == DeviceLines(c) + PeerLines(c)
  {
    hide PairsBetween, AddressLines, ItemsLines;
    ItemsPrintable();
    UptoEnds(c);
    ItemsPrint(c, 24);
    assert ITEMS[..24] == ITEMS;
    BetweenSplits(c, 0, 19, 24);
  }

  // ---------------------------------------------------------------- the printer as written

  lemma {:induction false} UnlinesConcat(a: seq<string>, b: seq<string>)
    ensures Unlines(a + b) == Unlines(a) + Unlines(b)
    decreases |b|
  {
    if b == [] {
      assert a + b == a;
    } else {
      var n := |b| - 1;
      assert (a + b)[..|a + b| - 1] == a + b[..n];
      UnlinesConcat(a, b[..n]);
    }
  }

  // strings.Builder
  class Builder {
    var text: string

    constructor ()
      ensures text == ""
    {
      text := "";
    }

    method WriteLine(line: string)
      modifies this
      ensures text == old(text) + line + "\n"
    {
      text := text + line + "\n";
    }

    method WriteInt(key: string, val: int)
      modifies this
      ensures text == old(text) + Unlines(if val > 0 then [key + "=" + Decimal(val)] else [])
    {
      if val > 0 {
        WriteLine(key + "=" + Decimal(val));
      }
    }

    method WriteStr(key: string, val: string)
      modifies this
      ensures text == old(text) + Unlines(if val != "" then [key + "=" + val] else [])
    {
      if val != "" {
        WriteLine(key + "=" + val);
      }
    }
  }

  // What has been written once the first k items are out.
  ghost function Upto(c: Settings, k: nat): string
    requires k <= |ITEMS|
  {
    ItemsPrintable();
    Unlines(ItemsLines(c, ITEMS[..k]))
  }

  lemma Wrote(c: Settings, k: nat)
    requires k < |ITEMS|
    ensures ITEMS[k].Put? ==> OnWire(ITEMS[k].f)
    ensures Upto(c, k + 1) == Upto(c, k) + Unlines(ItemLines(c, ITEMS[k]))
  {
    ItemsPrintable();
    assert ITEMS[..k + 1][..k] == ITEMS[..k];
    UnlinesConcat(ItemsLines(c, ITEMS[..k]), ItemLines(c, ITEMS[k]));
  }

  lemma WroteInt(c: Settings, k: nat, f: Field, key: string, v: GoInt)
    requires k < |ITEMS| && ITEMS[k] == Put(f) && OnWire(f) && Name(f) == key
    requires IsInt(f) && GetInt(c, f) == v
    ensures Upto(c, k + 1) == Upto(c, k) + Unlines(if v > 0 then [key + "=" + Decimal(v)] else [])
  {
    Wrote(c, k);
  }

  lemma WroteStr(c: Settings, k: nat, f: Field, key: string, v: string)
    requires k < |ITEMS| && ITEMS[k] == Put(f) && OnWire(f) && Name(f) == key
    requires !IsInt(f) && !IsKey(f) && GetString(c, f) == v
    ensures Upto(c, k + 1) == Upto(c, k) + Unlines(if v != "" then [key + "=" + v] else [])
  {
    Wrote(c, k);
  }

  lemma WroteKey(c: Settings, k: nat, f: Field, key: string, hex: string)
    requires k < |ITEMS| && ITEMS[k] == Put(f) && OnWire(f) && Name(f) == key
    requires IsKey(f)
    requires FieldText(c, f) == hex
    ensures Upto(c, k + 1) == Upto(c, k) + Unlines(if hex != "" then [key + "=" + hex] else [])
  {
    Wrote(c, k);
  }

  lemma WroteLiteral(c: Settings, k: nat, line: string)
    requires k < |ITEMS| && ITEMS[k] == Literal(line)
    ensures Upto(c, k + 1) == Upto(c, k) + line + "\n"
  {
    Wrote(c, k);
    UnlinesOne(line);
  }

  lemma UnlinesOne(line: string)
    ensures Unlines([line]) == line + "\n"
  {
    assert [line][..0] == [];
    assert "" + line + "\n" == line + "\n";
  }

  method WriteInterface(b: Builder, c: Settings, privHex: string)
    requires b.text == Upto(c, 0) && FieldText(c, PrivateKey) == privHex != ""
    modifies b
    ensures b.text == Upto(c, 3)
  {
    hide Upto, Unlines, Decimal, FieldText;
    b.WriteStr("private_key", privHex);
    WroteKey(c, 0, PrivateKey, "private_key", privHex);
    b.WriteInt("listen_port", c.listenPort);
    WroteInt(c, 1, ListenPort, "listen_port", c.listenPort);
    b.WriteLine("replace_peers=true");
    WroteLiteral(c, 2, "replace_peers=true");
  }

  method WriteJunk(b: Builder, c: Settings)
    requires b.text == Upto(c, 3)
    modifies b
    ensures b.text == Upto(c, 6)
  {
    hide Upto, Unlines, Decimal;
    b.WriteInt("jc", c.jc);
    WroteInt(c, 3, Jc, "jc", c.jc);
    b.WriteInt("jmin", c.jmin);
    WroteInt(c, 4, Jmin, "jmin", c.jmin);
    b.WriteInt("jmax", c.jmax);
    WroteInt(c, 5, Jmax, "jmax", c.jmax);
  }

  method WriteSizes(b: Builder, c: Settings)
    requires b.text == Upto(c, 6)
    modifies b
    ensures b.text == Upto(c, 10)
  {
    hide Upto, Unlines, Decimal;
    b.WriteInt("s1", c.s1);
    WroteInt(c, 6, S1, "s1", c.s1);
    b.WriteInt("s2", c.s2);
    WroteInt(c, 7, S2, "s2", c.s2);
    b.WriteInt("s3", c.s3);
    WroteInt(c, 8, S3, "s3", c.s3);
    b.WriteInt("s4", c.s4);
    WroteInt(c, 9, S4, "s4", c.s4);
  }

  method WriteHeaders(b: Builder, c: Settings)
    requires b.text == Upto(c, 10)
    modifies b
    ensures b.text == Upto(c, 14)
  {
    hide Upto, Unlines;
    b.WriteStr("h1", c.h1);
    WroteStr(c, 10, H1, "h1", c.h1);
    b.WriteStr("h2", c.h2);
    WroteStr(c, 11, H2, "h2", c.h2);
    b.WriteStr("h3", c.h3);
    WroteStr(c, 12, H3, "h3", c.h3);
    b.WriteStr("h4", c.h4);
    WroteStr(c, 13, H4, "h4", c.h4);
  }

  method WritePackets(b: Builder, c: Settings)
    requires b.text == Upto(c, 14)
    modifies b
    ensures b.text == Upto(c, 19)
  {
    hide Upto, Unlines;
    b.WriteStr("i1", c.i1);
    WroteStr(c, 14, I1, "i1", c.i1);
    b.WriteStr("i2", c.i2);
    WroteStr(c, 15, I2, "i2", c.i2);
    b.WriteStr("i3", c.i3);
    WroteStr(c, 16, I3, "i3", c.i3);
    b.WriteStr("i4", c.i4);
    WroteStr(c, 17, I4, "i4", c.i4);
    b.WriteStr("i5", c.i5);
    WroteStr(c, 18, I5, "i5", c.i5);
  }

  method WritePeer(b: Builder, c: Settings, pubHex: string, pskHex: string)
    requires b.text == Upto(c, 19) && FieldText(c, PeerPublicKey) == pubHex && FieldText(c, PeerPSK) == pskHex
    modifies b
    ensures b.text == Upto(c, 24)
  {
    hide Upto, Unlines, Decimal, FieldText;
    b.WriteStr("public_key", pubHex);
    WroteKey(c, 19, PeerPublicKey, "public_key", pubHex);
    b.WriteStr("preshared_key", pskHex);
    WroteKey(c, 20, PeerPSK, "preshared_key", pskHex);
    b.WriteStr("endpoint", c.endpoint);
    WroteStr(c, 21, Endpoint, "endpoint", c.endpoint);
    b.WriteInt("persistent_keepalive_interval", c.persistentKA);
    WroteInt(c, 22, PersistentKA, "persistent_keepalive_interval", c.persistentKA);
    b.WriteLine("replace_allowed_ips=true");
    WroteLiteral(c, 23, "replace_allowed_ips=true");
  }

  method WriteAddresses(b: Builder, ips: seq<string>)
    modifies b
    ensures b.text == old(b.text) + Unlines(AddressLines(ips))
  {
    ghost var before := b.text;
    for i := 0 to |ips|
      invariant b.text == before + Unlines(AddressLines(ips[..i]))
    {
      assert ips[..i + 1][..i] == ips[..i];
      UnlinesConcat(AddressLines(ips[..i]), ["allowed_ip=" + ips[i]]);
      UnlinesOne("allowed_ip=" + ips[i]);
      b.WriteLine("allowed_ip=" + ips[i]);
    }
    assert ips[..|ips|] == ips;
  }

  lemma KeyTexts(c: Settings, f: Field)
    requires IsKey(f)
    ensures KeyCheck(c, f) ==
            match Base64.B64ToHex(GetString(c, f)) case Ok(_) => None case Err(e) => Some(BadKey(f, e))
    ensures Base64.B64ToHex(GetString(c, f)).Ok? ==>
              Base64.B64ToHex(GetString(c, f)).value == FieldText(c, f) != ""
    ensures GetString(c, f) == "" ==> FieldText(c, f) == ""
  {
    Base64.HexKeepsKey(GetString(c, f));
  }

  lemma UptoEnds(c: Settings)
    ensures Upto(c, 0) == "" && |ITEMS| == 24
    ensures Unlines(Lines(c)) == Upto(c, 24) + Unlines(AddressLines(c.allowedIPs))
  {
    ItemsPrintable();
    assert ITEMS[..24] == ITEMS;
    UnlinesConcat(ItemsLines(c, ITEMS), AddressLines(c.allowedIPs));
  }

  // Everything up to the peer, once the private key has been re-encoded.
  method WriteDevice(b: Builder, c: Settings, privHex: string)
    requires b.text == "" && FieldText(c, PrivateKey) == privHex != ""
    modifies b
    ensures b.text == Upto(c, 19)
  {
    hide Upto, FieldText;
    UptoEnds(c);
    WriteInterface(b, c, privHex);
    WriteJunk(b, c);
    WriteSizes(b, c);
    WriteHeaders(b, c);
    WritePackets(b, c);
  }

  // The hex of a key, or the error that ends the build.
  method KeyHex(c: Settings, f: Field) returns (r: Result<string, BuildError>)
    requires IsKey(f)
    ensures r.Ok? ==> KeyCheck(c, f).None? && r.value == FieldText(c, f) != ""
    ensures r.Err? ==> KeyCheck(c, f) == Some(r.error)
  {
    KeyTexts(c, f);
    var hex := Base64.B64ToHex(GetString(c, f));
    r := match hex case Ok(v) => Ok(v) case Err(e) => Err(BadKey(f, e));
  }

  // The configuration's own method: the first bad key ends it, otherwise the text is complete.
  method BuildUAPI(c: Settings) returns (r: Result<string, BuildError>)
    ensures r == Build(c)
    ensures r.Ok? ==> r.value == Unlines(DeviceLines(c) + PeerLines(c))
    ensures r.Ok? <==>
            && Base64.B64ToHex(c.privateKey).Ok?
            && Base64.B64ToHex(c.peerPublicKey).Ok?
            && (c.peerPSK == "" || Base64.B64ToHex(c.peerPSK).Ok?)
  {
    hide DeviceLines, PeerLines, Upto, Unlines, Lines, AddressLines, FieldText, KeyCheck, Base64.B64ToHex;
    BuildFails(c);
    LinesAre(c);
    var b := new Builder();
    var priv := KeyHex(c, PrivateKey);
    if priv.Err? {
      return priv;
    }
    WriteDevice(b, c, priv.value);
    var pub := KeyHex(c, PeerPublicKey);
    if pub.Err? {
      return pub;
    }
    var pskHex := "";
    KeyTexts(c, PeerPSK);
    if c.peerPSK != "" {
      var psk := KeyHex(c, PeerPSK);
      if psk.Err? {
        return psk;
      }
      pskHex := psk.value;
    }
    WritePeer(b, c, pub.value, pskHex);
    WriteAddresses(b, c.allowedIPs);
    UptoEnds(c);
    return Ok(b.text);
  }
}
