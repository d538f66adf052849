/**
 Writing a .conf file, and reading it back: the parser recovers any configuration from any file laid
 out like this one, whatever blank space surrounds headers, keys, equals signs, values and commas.
 */
module ConfRender {
  import opened Wrappers
  import opened Text
  import opened Settings
  import opened ConfParser

  // ---------------------------------------------------------------- the file

  // Blank space within a line, a carriage return at its end included.
  predicate Blank(pad: string) {
    forall i | 0 <= i < |pad| :: pad[i] == ' ' || pad[i] == '\t' || pad[i] == '\r'
  }

  // The addresses, separated by commas.
  function Listed(ips: seq<string>, pad: string): string {
    if ips == [] then ""
    else if |ips| == 1 then ips[0]
    else ips[0] + pad + "," + pad + Listed(ips[1..], pad)
  }

  // The k-th key and value: the interface section, and from 21 on the peer section.
  function ConfPair(c: Settings, k: nat, pad: string): Pair
    requires k < 26
  {
    match k
    case 0 => Pair("PrivateKey", c.privateKey)
    case 1 => Pair("Address", c.address)
    case 2 => Pair("DNS", c.dns)
    case 3 => Pair("MTU", Shown(c.mtu))
    case 4 => Pair("ListenPort", Shown(c.listenPort))
    case 5 => Pair("Jc", Shown(c.jc))
    case 6 => Pair("Jmin", Shown(c.jmin))
    case 7 => Pair("Jmax", Shown(c.jmax))
    case 8 => Pair("S1", Shown(c.s1))
    case 9 => Pair("S2", Shown(c.s2))
    case 10 => Pair("S3", Shown(c.s3))
    case 11 => Pair("S4", Shown(c.s4))
    case 12 => Pair("H1", c.h1)
    case 13 => Pair("H2", c.h2)
    case 14 => Pair("H3", c.h3)
    case 15 => Pair("H4", c.h4)
    case 16 => Pair("I1", c.i1)
    case 17 => Pair("I2", c.i2)
    case 18 => Pair("I3", c.i3)
    case 19 => Pair("I4", c.i4)
    case 20 => Pair("I5", c.i5)
    case 21 => Pair("PublicKey", c.peerPublicKey)
    case 22 => Pair("PresharedKey", c.peerPSK)
    case 23 => Pair("Endpoint", c.endpoint)
    case 24 => Pair("AllowedIPs", Listed(c.allowedIPs, pad))
    case 25 => Pair("PersistentKeepalive", Shown(c.persistentKA))
  }

  function Laid(p: Pair, pad: string): string {
    pad + p.key + pad + "=" + pad + p.val + pad
  }

  // A header may be spelled in any mixture of cases.
  predicate InterfaceHeader(h: string) {
    |h| == 11 && forall i | 0 <= i < 11 :: h[i] == "[interface]"[i] || h[i] == "[INTERFACE]"[i]
  }

  predicate PeerHeader(h: string) {
    |h| == 6 && forall i | 0 <= i < 6 :: h[i] == "[peer]"[i] || h[i] == "[PEER]"[i]
  }

  datatype Layout = Layout(pad: string, interface: string, peer: string)

  ghost predicate Legal(o: Layout) {
    Blank(o.pad) && InterfaceHeader(o.interface) && PeerHeader(o.peer)
  }

  // The first k pairs, each section under its header.
  function LinesUpto(c: Settings, o: Layout, k: nat): seq<string>
    requires k <= 26
  {
    if k == 0 then [o.pad + o.interface + o.pad]
    else
      LinesUpto(c, o, k - 1)
      + (if k - 1 == 21 then [o.pad + o.peer + o.pad] else [])
      + [Laid(ConfPair(c, k - 1, o.pad), o.pad)]
  }

  function Render(c: Settings, o: Layout): string {
    JoinLines(LinesUpto(c, o, 26))
  }

  // No space at either end.
  predicate Tight(s: string) {
    s != "" ==> !IsSpace(s[0]) && !IsSpace(s[|s| - 1])
  }

  // A value that fits on a line.
  predicate Neat(s: string) {
    Tight(s) && '\n' !in s
  }

  ghost predicate Writable(c: Settings) {
    && (forall f: Field | !IsInt(f) :: Neat(GetString(c, f)))
    && (forall i | 0 <= i < |c.allowedIPs| ::
          Neat(c.allowedIPs[i]) && c.allowedIPs[i] != "" && ',' !in c.allowedIPs[i])
  }

  // ---------------------------------------------------------------- trimming

  lemma BlankIsSpace(pad: string)
    requires Blank(pad)
    ensures forall i | 0 <= i < |pad| :: IsSpace(pad[i]) && pad[i] != '=' && pad[i] != '\n' && pad[i] != ','
  {
  }

  lemma {:induction false} TrimLeftPad(pad: string, s: string)
    requires forall i | 0 <= i < |pad| :: IsSpace(pad[i])
    ensures TrimLeft(pad + s) == TrimLeft(s)
  {
    if pad == "" {
      assert pad + s == s;
    } else {
      assert (pad + s)[1..] == pad[1..] + s;
      TrimLeftPad(pad[1..], s);
    }
  }

  lemma {:induction false} TrimRightPad(s: string, pad: string)
    requires forall i | 0 <= i < |pad| :: IsSpace(pad[i])
    ensures TrimRight(s + pad) == TrimRight(s)
    decreases |pad|
  {
    if pad == "" {
      assert s + pad == s;
    } else {
      var n := |pad| - 1;
      assert (s + pad)[..|s + pad| - 1] == s + pad[..n];
      TrimRightPad(s, pad[..n]);
    }
  }

  // Blank space around a text that begins and ends with something else is all that trimming removes.
  lemma TrimPadded(before: string, s: string, after: string)
    requires Blank(before) && Blank(after) && Tight(s)
    ensures TrimSpace(before + s + after) == s
  {
    BlankIsSpace(before);
    BlankIsSpace(after);
    assert before + s + after == before + (s + after);
    TrimLeftPad(before, s + after);
    if s == "" {
      assert s + after == after + "";
      TrimLeftPad(after, "");
    } else {
      assert (s + after)[0] == s[0];
      TrimRightPad(s, after);
    }
  }

  // ---------------------------------------------------------------- one line

  // A key of the format: a capital letter first, and neither spaces nor equals signs.
  predicate Keyish(key: string) {
    key != "" && 'A' <= key[0] <= 'Z' && forall i | 0 <= i < |key| :: key[i] != '=' && !IsSpace(key[i])
  }

  lemma CapitalIsNoHeader(s: string)
    requires s != "" && 'A' <= s[0] <= 'Z'
    ensures s[0] != '#' && ToLower(s) != "[interface]" && ToLower(s) != "[peer]"
  {
    assert ToLower(s)[0] == LowerChar(s[0]);
  }

  lemma NoEqualsIn(key: string, pad: string)
    requires Keyish(key) && Blank(pad)
    ensures '=' !in key + pad
  {
    BlankIsSpace(pad);
  }

  // What is left of a line once its ends are trimmed.
  lemma TrimmedLine(p: Pair, pad: string) returns (rest: string)
    requires Keyish(p.key) && Blank(pad) && Tight(p.val)
    ensures TrimSpace(Laid(p, pad)) == p.key + pad + "=" + rest
    ensures TrimSpace(rest) == p.val
  {
    if p.val == "" {
      rest := "";
      var core := p.key + pad + "=";
      assert core[0] == p.key[0] && core[|core| - 1] == '=';
      BlankIsSpace(pad);
      TrimPadded(pad, core, pad + pad);
      assert Laid(p, pad) == pad + core + (pad + pad);
      assert core + "" == core;
    } else {
      rest := pad + p.val;
      var core := p.key + pad + "=" + rest;
      assert core[0] == p.key[0] && core[|core| - 1] == p.val[|p.val| - 1];
      TrimPadded(pad, core, pad);
      assert Laid(p, pad) == pad + core + pad;
      TrimPadded(pad, p.val, "");
      assert rest == pad + p.val + "";
    }
  }

  lemma ClassifyLaid(p: Pair, pad: string)
    requires Keyish(p.key) && Blank(pad) && Tight(p.val)
    ensures Classify(Laid(p, pad)) == Assignment(p.key, p.val)
  {
    hide TrimSpace, Laid, Cut, ToLower;
    var rest := TrimmedLine(p, pad);
    var line := TrimSpace(Laid(p, pad));
    assert line == (p.key + pad) + ['='] + rest;
    assert line[0] == p.key[0];
    CapitalIsNoHeader(line);
    NoEqualsIn(p.key, pad);
    CutAtFirst(p.key + pad, '=', rest);
    TrimPadded("", p.key, pad);
    assert "" + p.key + pad == p.key + pad;
  }

  lemma ClassifyHeaders(o: Layout)
    requires Legal(o)
    ensures Classify(o.pad + o.interface + o.pad) == Header(Interface)
    ensures Classify(o.pad + o.peer + o.pad) == Header(Peer)
  {
    HeadersTight(o);
    TrimPadded(o.pad, o.interface, o.pad);
    TrimPadded(o.pad, o.peer, o.pad);
    LowerInterface(o.interface);
    LowerPeer(o.peer);
    hide TrimSpace, ToLower, Blank;
  }

  lemma HeadersTight(o: Layout)
    requires Legal(o)
    ensures Tight(o.interface) && Tight(o.peer) && '\n' !in o.interface && '\n' !in o.peer
    ensures |o.interface| == 11 && |o.peer| == 6 && o.interface[0] == '[' && o.peer[0] == '['
  {
  }

  lemma LowerInterface(h: string)
    requires InterfaceHeader(h)
    ensures ToLower(h) == "[interface]"
  {
    LowerAll(h, "[interface]");
  }

  lemma LowerPeer(h: string)
    requires PeerHeader(h)
    ensures ToLower(h) == "[peer]" && ToLower(h) != "[interface]"
  {
    LowerAll(h, "[peer]");
  }

  lemma {:induction false} LowerAll(s: string, low: string)
    requires |s| == |low| && forall i | 0 <= i < |s| :: LowerChar(s[i]) == low[i]
    ensures ToLower(s) == low
  {
    if s != "" {
      LowerAll(s[1..], low[1..]);
      assert low == [low[0]] + low[1..];
    }
  }

  // ---------------------------------------------------------------- the list of addresses

  lemma {:induction false} KeptFirst(x: string, xs: seq<string>)
    ensures Kept([x] + xs) == (if TrimSpace(x) != "" then [TrimSpace(x)] else []) + Kept(xs)
  {
    hide TrimSpace;
    var all := [x] + xs;
    if xs == [] {
      assert all == [x] && all[..0] == [];
    } else {
      var n := |xs| - 1;
      assert all[..|all| - 1] == [x] + xs[..n];
      KeptFirst(x, xs[..n]);
    }
  }

  ghost predicate Addressable(ips: seq<string>) {
    forall i | 0 <= i < |ips| :: Neat(ips[i]) && ips[i] != "" && ',' !in ips[i]
  }

  lemma {:induction false} ListKeeps(before: string, ips: seq<string>, pad: string)
    requires Blank(before) && Blank(pad) && ips != [] && Addressable(ips)
    ensures Kept(Split(before + Listed(ips, pad), ',')) == ips
    decreases |ips|
  {
    hide TrimSpace, Kept, Split;
    BlankIsSpace(before);
    BlankIsSpace(pad);
    var ip := ips[0];
    if |ips| == 1 {
      var item := before + ip;
      SplitOne(item, ',');
      TrimPadded(before, ip, "");
      assert before + ip + "" == item;
      KeptFirst(item, []);
      assert [item] + [] == [item];
      KeptNothing();
      assert ips == [ip];
    } else {
      var item, rest := before + ip + pad, Listed(ips[1..], pad);
      assert before + Listed(ips, pad) == item + [','] + (pad + rest);
      SplitFirst(item, ',', pad + rest);
      TrimPadded(before, ip, pad);
      ListKeeps(pad, ips[1..], pad);
      KeptFirst(item, Split(pad + rest, ','));
      assert [ip] + ips[1..] == ips;
    }
  }

  lemma KeptNothing()
    ensures Kept([]) == []
  {
  }

  lemma AddressesListed(ips: seq<string>, pad: string)
    requires Blank(pad) && Addressable(ips)
    ensures Addresses(Listed(ips, pad)) == ips
  {
    if ips == [] {
      KeptFirst("", []);
      assert Split("", ',') == [""] && [""] + [] == [""];
    } else {
      ListKeeps("", ips, pad);
      assert "" + Listed(ips, pad) == Listed(ips, pad);
    }
  }

  lemma {:induction false} ListedIsNeat(ips: seq<string>, pad: string)
    requires Blank(pad) && Addressable(ips)
    ensures Neat(Listed(ips, pad))
    ensures ips != [] ==> Listed(ips, pad) != "" && Listed(ips, pad)[0] == ips[0][0]
  {
    BlankIsSpace(pad);
    if |ips| > 1 {
      ListedIsNeat(ips[1..], pad);
      var rest := Listed(ips[1..], pad);
      assert Listed(ips, pad)[|Listed(ips, pad)| - 1] == rest[|rest| - 1];
    }
  }

  // ---------------------------------------------------------------- one pair

  // The configuration with its k-th field taken from c.
  function Filled(d: Settings, c: Settings, k: nat): Settings
    requires k < 26
  {
    match k
    case 0 => d.(privateKey := c.privateKey)
    case 1 => d.(address := c.address)
    case 2 => d.(dns := c.dns)
    case 3 => d.(mtu := c.mtu)
    case 4 => d.(listenPort := c.listenPort)
    case 5 => d.(jc := c.jc)
    case 6 => d.(jmin := c.jmin)
    case 7 => d.(jmax := c.jmax)
    case 8 => d.(s1 := c.s1)
    case 9 => d.(s2 := c.s2)
    case 10 => d.(s3 := c.s3)
    case 11 => d.(s4 := c.s4)
    case 12 => d.(h1 := c.h1)
    case 13 => d.(h2 := c.h2)
    case 14 => d.(h3 := c.h3)
    case 15 => d.(h4 := c.h4)
    case 16 => d.(i1 := c.i1)
    case 17 => d.(i2 := c.i2)
    case 18 => d.(i3 := c.i3)
    case 19 => d.(i4 := c.i4)
    case 20 => d.(i5 := c.i5)
    case 21 => d.(peerPublicKey := c.peerPublicKey)
    case 22 => d.(peerPSK := c.peerPSK)
    case 23 => d.(endpoint := c.endpoint)
    case 24 => d.(allowedIPs := d.allowedIPs + c.allowedIPs)
    case 25 => d.(persistentKA := c.persistentKA)
  }

  function SectionOf(k: nat): Section {
    if k < 21 then Interface else Peer
  }

  // Storing the k-th pair in its section takes over the k-th field.
  ghost predicate Stores(d: Settings, c: Settings, k: nat, pad: string)
    requires k < 26
  {
    var p := ConfPair(c, k, pad);
    Keyish(p.key) && Neat(p.val) && Store(d, SectionOf(k), p.key, p.val) == Filled(d, c, k)
  }

  lemma StoredInt(d: Settings, f: Field, key: string, v: GoInt)
    requires IsInt(f) && key == KeyOf(f)
    ensures Store(d, HomeOf(f), key, Shown(v)) == SetInt(d, f, v)
    ensures Neat(Shown(v))
  {
    hide FieldOf, KeyOf, HomeOf, ScanInt, GetInt, SetInt;
    NamesIff(HomeOf(f), key, f);
    ScanShown(v);
    ShownIsNeat(v);
  }

  lemma ShownIsNeat(v: GoInt)
    ensures Neat(Shown(v))
  {
    hide Shown;
    assert forall c: char :: IsDigit(c) || c == '-' ==> !IsSpace(c) && c != '\n';
  }

  lemma StoredString(d: Settings, f: Field, key: string, v: string)
    requires !IsInt(f) && key == KeyOf(f)
    ensures Store(d, HomeOf(f), key, v) == SetString(d, f, v)
  {
    hide FieldOf, KeyOf, HomeOf, GetString, SetString;
    NamesIff(HomeOf(f), key, f);
  }

  lemma ShortKeys(c: Settings, k: nat, pad: string)
    requires 2 < k < 21 && k != 4
    ensures Keyish(ConfPair(c, k, pad).key)
  {
    hide Shown, Listed;
  }

  lemma FirstKeys(c: Settings, k: nat, pad: string)
    requires k < 3 || k == 4
    ensures Keyish(ConfPair(c, k, pad).key)
  {
    hide Shown, Listed;
  }

  lemma PeerKeys(c: Settings, k: nat, pad: string)
    requires k == 21 || k == 23 || k == 24
    ensures Keyish(ConfPair(c, k, pad).key)
  {
    hide Shown, Listed;
  }

  lemma SharedKey(c: Settings, pad: string)
    ensures Keyish(ConfPair(c, 22, pad).key)
  {
    hide Shown, Listed;
  }

  lemma LongKey()
    ensures Keyish("PersistentKeepalive")
  {
  }

  lemma LastPair(c: Settings, pad: string)
    ensures ConfPair(c, 25, pad) == Pair("PersistentKeepalive", Shown(c.persistentKA))
  {
  }

  lemma KeysAreKeyish(c: Settings, k: nat, pad: string)
    requires k < 26
    ensures Keyish(ConfPair(c, k, pad).key)
  {
    hide Keyish, ConfPair;
    if k < 3 || k == 4 {
      FirstKeys(c, k, pad);
    } else if k < 21 {
      ShortKeys(c, k, pad);
    } else if k == 22 {
      SharedKey(c, pad);
    } else if k < 25 {
      PeerKeys(c, k, pad);
    } else {
      LongKey();
      LastPair(c, pad);
    }
  }

  lemma StoresNames(d: Settings, c: Settings, k: nat, pad: string)
    requires k < 3 && Writable(c)
    ensures Stores(d, c, k, pad)
  {
    hide Store, Neat, Keyish, Listed, Shown;
    KeysAreKeyish(c, k, pad);
    match k
    case 0 => StoredString(d, PrivateKey, "PrivateKey", c.privateKey);
    case 1 => StoredString(d, Address, "Address", c.address);
    case 2 => StoredString(d, DNS, "DNS", c.dns);
  }

  lemma StoresNumbers(d: Settings, c: Settings, k: nat, pad: string)
    requires 3 <= k < 8 && Writable(c)
    ensures Stores(d, c, k, pad)
  {
    hide Store, Neat, Keyish, Listed, Shown;
    KeysAreKeyish(c, k, pad);
    match k
    case 3 => StoredInt(d, MTU, "MTU", c.mtu);
    case 4 => StoredInt(d, ListenPort, "ListenPort", c.listenPort);
    case 5 => StoredInt(d, Jc, "Jc", c.jc);
    case 6 => StoredInt(d, Jmin, "Jmin", c.jmin);
    case 7 => StoredInt(d, Jmax, "Jmax", c.jmax);
  }

  lemma StoresSizes(d: Settings, c: Settings, k: nat, pad: string)
    requires 8 <= k < 12 && Writable(c)
    ensures Stores(d, c, k, pad)
  {
    hide Store, Neat, Keyish, Listed, Shown;
    KeysAreKeyish(c, k, pad);
    match k
    case 8 => StoredInt(d, S1, "S1", c.s1);
    case 9 => StoredInt(d, S2, "S2", c.s2);
    case 10 => StoredInt(d, S3, "S3", c.s3);
    case 11 => StoredInt(d, S4, "S4", c.s4);
  }

  lemma StoresHeaders(d: Settings, c: Settings, k: nat, pad: string)
    requires 12 <= k < 16 && Writable(c)
    ensures Stores(d, c, k, pad)
  {
    hide Store, Neat, Keyish, Listed, Shown;
    KeysAreKeyish(c, k, pad);
    match k
    case 12 => StoredString(d, H1, "H1", c.h1);
    case 13 => StoredString(d, H2, "H2", c.h2);
    case 14 => StoredString(d, H3, "H3", c.h3);
    case 15 => StoredString(d, H4, "H4", c.h4);
  }

  lemma StoresPackets(d: Settings, c: Settings, k: nat, pad: string)
    requires 16 <= k < 21 && Writable(c)
    ensures Stores(d, c, k, pad)
  {
    hide Store, Neat, Keyish, Listed, Shown;
    KeysAreKeyish(c, k, pad);
    match k
    case 16 => StoredString(d, I1, "I1", c.i1);
    case 17 => StoredString(d, I2, "I2", c.i2);
    case 18 => StoredString(d, I3, "I3", c.i3);
    case 19 => StoredString(d, I4, "I4", c.i4);
    case 20 => StoredString(d, I5, "I5", c.i5);
  }

  lemma StoresPeer(d: Settings, c: Settings, k: nat, pad: string)
    requires 21 <= k < 24 && Writable(c)
    ensures Stores(d, c, k, pad)
  {
    hide Store, Neat, Keyish, Listed, Shown;
    KeysAreKeyish(c, k, pad);
    match k
    case 21 => StoredString(d, PeerPublicKey, "PublicKey", c.peerPublicKey);
    case 22 => StoredString(d, PeerPSK, "PresharedKey", c.peerPSK);
    case 23 => StoredString(d, Endpoint, "Endpoint", c.endpoint);
  }

  lemma StoresAddresses(d: Settings, c: Settings, pad: string)
    requires Writable(c) && Blank(pad)
    ensures Stores(d, c, 24, pad)
  {
    hide Addresses, Listed, Neat, Keyish;
    KeysAreKeyish(c, 24, pad);
    assert Addressable(c.allowedIPs);
    AddressesListed(c.allowedIPs, pad);
    ListedIsNeat(c.allowedIPs, pad);
    AddressKeyIsNoField(Peer, "AllowedIPs");
  }

  lemma StoresKeepalive(d: Settings, c: Settings, pad: string)
    ensures Stores(d, c, 25, pad)
  {
    hide Store, Neat, Keyish, Listed, Shown;
    KeysAreKeyish(c, 25, pad);
    StoredInt(d, PersistentKA, "PersistentKeepalive", c.persistentKA);
  }

  lemma AllStore(d: Settings, c: Settings, k: nat, pad: string)
    requires k < 26 && Writable(c) && Blank(pad)
    ensures Stores(d, c, k, pad)
  {
    hide Stores, Writable, Blank;
    if k < 3 {
      StoresNames(d, c, k, pad);
    } else if k < 8 {
      StoresNumbers(d, c, k, pad);
    } else if k < 12 {
      StoresSizes(d, c, k, pad);
    } else if k < 16 {
      StoresHeaders(d, c, k, pad);
    } else if k < 21 {
      StoresPackets(d, c, k, pad);
    } else if k < 24 {
      StoresPeer(d, c, k, pad);
    } else if k == 24 {
      StoresAddresses(d, c, pad);
    } else {
      StoresKeepalive(d, c, pad);
    }
  }

  // ---------------------------------------------------------------- the whole file

  function FilledUpto(c: Settings, k: nat): Settings
    requires k <= 26
  {
    if k == 0 then EMPTY else Filled(FilledUpto(c, k - 1), c, k - 1)
  }

  lemma ParseOneMore(lines: seq<string>, line: string)
    ensures ParseLines(lines + [line]) == Step(ParseLines(lines), Classify(line))
  {
    hide Classify;
    assert (lines + [line])[..|lines|] == lines;
  }

  lemma {:induction false} ParseUpto(c: Settings, o: Layout, k: nat)
    requires k <= 26 && Writable(c) && Legal(o)
    ensures ParseLines(LinesUpto(c, o, k)) == Parser(if k <= 21 then Interface else Peer, FilledUpto(c, k))
  {
    hide ConfPair, Filled, Classify, Store, Writable, Neat, Keyish, Laid, Blank, InterfaceHeader, PeerHeader;
    ClassifyHeaders(o);
    if k == 0 {
      ParseOneMore([], o.pad + o.interface + o.pad);
      assert [] + [o.pad + o.interface + o.pad] == [o.pad + o.interface + o.pad];
    } else {
      ParseUpto(c, o, k - 1);
      var before, p := LinesUpto(c, o, k - 1), ConfPair(c, k - 1, o.pad);
      AllStore(FilledUpto(c, k - 1), c, k - 1, o.pad);
      NeatIsTight(p.val);
      ClassifyLaid(p, o.pad);
      if k - 1 == 21 {
        ParseOneMore(before, o.pad + o.peer + o.pad);
        ParseOneMore(before + [o.pad + o.peer + o.pad], Laid(p, o.pad));
      } else {
        ParseOneMore(before, Laid(p, o.pad));
        assert before + [] + [Laid(p, o.pad)] == before + [Laid(p, o.pad)];
      }
    }
  }

  lemma NeatIsTight(s: string)
    requires Neat(s)
    ensures Tight(s) && '\n' !in s
  {
  }

  lemma LaidIsOneLine(p: Pair, pad: string)
    requires Keyish(p.key) && Neat(p.val) && Blank(pad)
    ensures '\n' !in Laid(p, pad)
  {
    BlankIsSpace(pad);
    assert IsSpace('\n');
  }

  lemma {:induction false} LinesAreLines(c: Settings, o: Layout, k: nat)
    requires k <= 26 && Writable(c) && Legal(o)
    ensures LinesUpto(c, o, k) != [] && OneLineEach(LinesUpto(c, o, k))
  {
    hide ConfPair, Writable, Neat, Keyish, Laid, Filled, Store;
    HeadersTight(o);
    BlankIsSpace(o.pad);
    if k > 0 {
      LinesAreLines(c, o, k - 1);
      AllStore(EMPTY, c, k - 1, o.pad);
      LaidIsOneLine(ConfPair(c, k - 1, o.pad), o.pad);
    }
  }

  lemma FilledFour(c: Settings, k: nat)
    requires k + 4 <= 26
    ensures FilledUpto(c, k + 4) ==
            Filled(Filled(Filled(Filled(FilledUpto(c, k), c, k), c, k + 1), c, k + 2), c, k + 3)
  {
    hide Filled;
    assert FilledUpto(c, k + 2) == Filled(Filled(FilledUpto(c, k), c, k), c, k + 1);
  }

  lemma Filled0(d: Settings, c: Settings)
    ensures Filled(Filled(Filled(Filled(d, c, 0), c, 1), c, 2), c, 3) ==
            d.(privateKey := c.privateKey, address := c.address, dns := c.dns, mtu := c.mtu)
  {
  }

  lemma Filled4(d: Settings, c: Settings)
    ensures Filled(Filled(Filled(Filled(d, c, 4), c, 5), c, 6), c, 7) ==
            d.(listenPort := c.listenPort, jc := c.jc, jmin := c.jmin, jmax := c.jmax)
  {
  }

  lemma Filled8(d: Settings, c: Settings)
    ensures Filled(Filled(Filled(Filled(d, c, 8), c, 9), c, 10), c, 11) ==
            d.(s1 := c.s1, s2 := c.s2, s3 := c.s3, s4 := c.s4)
  {
  }

  lemma Filled12(d: Settings, c: Settings)
    ensures Filled(Filled(Filled(Filled(d, c, 12), c, 13), c, 14), c, 15) ==
            d.(h1 := c.h1, h2 := c.h2, h3 := c.h3, h4 := c.h4)
  {
  }

  lemma Filled16(d: Settings, c: Settings)
    ensures Filled(Filled(Filled(Filled(d, c, 16), c, 17), c, 18), c, 19) ==
            d.(i1 := c.i1, i2 := c.i2, i3 := c.i3, i4 := c.i4)
  {
  }

  lemma Filled20(d: Settings, c: Settings)
    ensures Filled(Filled(Filled(Filled(d, c, 20), c, 21), c, 22), c, 23) ==
            d.(i5 := c.i5, peerPublicKey := c.peerPublicKey, peerPSK := c.peerPSK, endpoint := c.endpoint)
  {
  }

  lemma FilledLast(d: Settings, c: Settings)
    ensures Filled(Filled(d, c, 24), c, 25) ==
            d.(allowedIPs := d.allowedIPs + c.allowedIPs, persistentKA := c.persistentKA)
  {
  }

  // Every field has been taken over.
  lemma FilledIsAll(c: Settings)
    ensures FilledUpto(c, 26) == c
  {
    hide Filled;
    FilledFour(c, 0);
    Filled0(FilledUpto(c, 0), c);
    FilledFour(c, 4);
    Filled4(FilledUpto(c, 4), c);
    FilledFour(c, 8);
    Filled8(FilledUpto(c, 8), c);
    FilledFour(c, 12);
    Filled12(FilledUpto(c, 12), c);
    FilledFour(c, 16);
    Filled16(FilledUpto(c, 16), c);
    FilledFour(c, 20);
    Filled20(FilledUpto(c, 20), c);
    FilledLast(FilledUpto(c, 24), c);
    assert FilledUpto(c, 0) == EMPTY;
    assert FilledUpto(c, 26) == Filled(Filled(FilledUpto(c, 24), c, 24), c, 25);
    assert EMPTY.allowedIPs + c.allowedIPs == c.allowedIPs;
  }

  // Parsing what was written gives the configuration back: every field from its own key and section,
  // the addresses in order. Without one of the two keys it gives the error for it.
  lemma ParseRender(c: Settings, o: Layout)
    requires Writable(c) && Legal(o)
    ensures Parse(Render(c, o)) ==
            if c.privateKey == "" then Err(MissingPrivateKey)
            else if c.peerPublicKey == "" then Err(MissingPublicKey)
            else Ok(c)
  {
    hide LinesUpto, JoinLines, Split, ParseLines, FilledUpto, Writable;
    LinesAreLines(c, o, 26);
    SplitJoin(LinesUpto(c, o, 26));
    ParseUpto(c, o, 26);
    FilledIsAll(c);
  }
}
