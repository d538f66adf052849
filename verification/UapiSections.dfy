/**
 A UAPI set message has two parts: the device, and then the peers, each opened by its public key.
 This reader takes the keys in turn and rejects one that is out of its place.
 */
module UapiSections {
  import opened Wrappers
  import opened Text
  import opened Settings
  import opened UapiFormat
  import Base64

  // Where a reader stands; `replaced` says whether the list that follows has been cleared.
  datatype Place = Outside | Device(replaced: bool) | Peer(replaced: bool) | Misplaced

  predicate DeviceKey(key: string) {
    || key == "listen_port" || key == "jc" || key == "jmin" || key == "jmax"
    || key == "s1" || key == "s2" || key == "s3" || key == "s4"
    || key == "h1" || key == "h2" || key == "h3" || key == "h4"
    || key == "i1" || key == "i2" || key == "i3" || key == "i4" || key == "i5"
  }

  predicate PeerKey(key: string) {
    key == "preshared_key" || key == "endpoint" || key == "persistent_keepalive_interval"
  }

  // The private key comes first, the device keys with one replace_peers after it; then the public
  // key, the peer keys after it, replace_allowed_ips, and after that only addresses.
  function Enter(p: Place, key: string): Place {
    match p
    case Outside => if key == "private_key" then Device(false) else Misplaced
    case Device(replaced) =>
      if DeviceKey(key) then p
      else if key == "replace_peers" && !replaced then Device(true)
      else if key == "public_key" && replaced then Peer(false)
      else Misplaced
    case Peer(replaced) =>
      if PeerKey(key) && !replaced then p
      else if key == "replace_allowed_ips" && !replaced then Peer(true)
      else if key == "allowed_ip" && replaced then p
      else Misplaced
    case Misplaced => Misplaced
  }

  function Walk(lines: seq<string>): Place {
    if lines == [] then Outside
    else
      match Cut(lines[|lines| - 1], '=')
      case None => Misplaced
      case Some(p) => Enter(Walk(lines[..|lines| - 1]), p.key)
  }

  // Where the reader is once the first k pairs are out.
  function PlaceAfter(k: nat): Place {
    if k == 0 then Outside
    else if k < 3 then Device(false)
    else if k < 20 then Device(true)
    else if k < 24 then Peer(false)
    else Peer(true)
  }

  // The four that are never left out.
  predicate Always(k: nat) {
    k == 0 || k == 2 || k == 19 || k == 23
  }

  ghost predicate Enters(c: Settings, k: nat)
    requires k < 24
  {
    && '=' !in PairAt(c, k).key
    && Enter(PlaceAfter(k), PairAt(c, k).key) == PlaceAfter(k + 1)
    && (!Always(k) ==> PlaceAfter(k + 1) == PlaceAfter(k))
  }

  lemma InterfaceEnters(c: Settings, k: nat)
    requires k < 6
    ensures Enters(c, k)
  {
    hide Hex, Number;
  }

  lemma SizesEnter(c: Settings, k: nat)
    requires 6 <= k < 10
    ensures Enters(c, k)
  {
    hide Hex, Number;
  }

  lemma HeadersEnter(c: Settings, k: nat)
    requires 10 <= k < 14
    ensures Enters(c, k)
  {
    hide Hex, Number;
  }

  lemma PacketsEnter(c: Settings, k: nat)
    requires 14 <= k < 19
    ensures Enters(c, k)
  {
    hide Hex, Number;
  }

  lemma PublicKeyEnters(c: Settings)
    ensures Enters(c, 19)
  {
    hide Hex, Number;
  }

  lemma PeerEnters(c: Settings, k: nat)
    requires k == 20 || k == 21
    ensures Enters(c, k)
  {
    hide Hex, Number, DeviceKey;
  }

  lemma KeepaliveIsPeerKey(c: Settings)
    ensures PairAt(c, 22).key == "persistent_keepalive_interval" && PeerKey(PairAt(c, 22).key)
  {
    hide Hex, Number;
  }

  lemma KeepaliveHasNoEquals()
    ensures '=' !in "persistent_keepalive_interval"
  {
  }

  lemma KeepaliveEnters(c: Settings)
    ensures Enters(c, 22)
  {
    hide PairAt, PeerKey, DeviceKey;
    KeepaliveIsPeerKey(c);
    KeepaliveHasNoEquals();
    StaysInPeer(PairAt(c, 22).key);
  }

  lemma StaysInPeer(key: string)
    requires PeerKey(key)
    ensures Enter(PlaceAfter(22), key) == PlaceAfter(23) == PlaceAfter(22)
  {
    hide PeerKey, DeviceKey;
  }

  lemma FlagIsKnown(c: Settings)
    ensures PairAt(c, 23).key == "replace_allowed_ips" && !PeerKey("replace_allowed_ips")
  {
    hide Hex, Number;
  }

  lemma FlagHasNoEquals()
    ensures '=' !in "replace_allowed_ips"
  {
  }

  lemma FlagEnters(c: Settings)
    ensures Enters(c, 23)
  {
    hide PairAt, PeerKey, DeviceKey;
    FlagIsKnown(c);
    FlagHasNoEquals();
    LeavesPeer(PairAt(c, 23).key);
  }

  lemma LeavesPeer(key: string)
    requires key == "replace_allowed_ips" && !PeerKey(key)
    ensures Enter(PlaceAfter(23), key) == PlaceAfter(24)
  {
    hide PeerKey, DeviceKey;
  }

  lemma AllEnter(c: Settings, k: nat)
    requires k < 24
    ensures Enters(c, k)
  {
    hide Enters;
    if k < 6 {
      InterfaceEnters(c, k);
    } else if k < 10 {
      SizesEnter(c, k);
    } else if k < 14 {
      HeadersEnter(c, k);
    } else if k < 19 {
      PacketsEnter(c, k);
    } else if k == 19 {
      PublicKeyEnters(c);
    } else if k < 22 {
      PeerEnters(c, k);
    } else if k == 22 {
      KeepaliveEnters(c);
    } else {
      FlagEnters(c);
    }
  }

  lemma WalkLine(lines: seq<string>, key: string, val: string)
    requires '=' !in key
    ensures Walk(lines + [key + "=" + val]) == Enter(Walk(lines), key)
  {
    hide Enter, Cut;
    CutAtFirst(key, '=', val);
    assert (lines + [key + "=" + val])[..|lines|] == lines;
  }

  ghost predicate NoneMissing(c: Settings) {
    Hex(c.privateKey) != "" && Hex(c.peerPublicKey) != ""
  }

  lemma AlwaysPrinted(c: Settings, k: nat)
    requires k < 24 && NoneMissing(c) && Always(k)
    ensures PairAt(c, k).val != ""
  {
    hide Hex;
  }

  lemma {:induction false} WalkPairs(c: Settings, k: nat)
    requires k <= 24 && NoneMissing(c)
    ensures Walk(PairsBetween(c, 0, k)) == PlaceAfter(k)
  {
    hide PairAt, Enter, NoneMissing, PlaceAfter, Always;
    if k == 0 {
      StartsOutside();
    } else {
      WalkPairs(c, k - 1);
      AllEnter(c, k - 1);
      var p := PairAt(c, k - 1);
      if Always(k - 1) {
        AlwaysPrinted(c, k - 1);
      }
      if p.val != "" {
        WalkLine(PairsBetween(c, 0, k - 1), p.key, p.val);
      } else {
        assert PairsBetween(c, 0, k) == PairsBetween(c, 0, k - 1);
      }
    }
  }

  lemma StartsOutside()
    ensures PlaceAfter(0) == Outside
  {
  }

  lemma {:induction false} WalkAddresses(lines: seq<string>, ips: seq<string>)
    requires Walk(lines) == Peer(true)
    ensures Walk(lines + AddressLines(ips)) == Peer(true)
  {
    hide Cut;
    if ips == [] {
      assert lines + AddressLines(ips) == lines;
    } else {
      var n := |ips| - 1;
      WalkAddresses(lines, ips[..n]);
      assert "allowed_ip=" + ips[n] == "allowed_ip" + "=" + ips[n];
      WalkLine(lines + AddressLines(ips[..n]), "allowed_ip", ips[n]);
      assert lines + AddressLines(ips) == lines + AddressLines(ips[..n]) + ["allowed_ip" + "=" + ips[n]];
    }
  }

  // Every message that is built is in order: device, public key, peer, addresses, with nothing out of
  // place; the private key is its first line, and the public key opens the peer part.
  lemma MessageIsSectioned(c: Settings)
    ensures Build(c).Ok? ==>
              && Build(c).value == Unlines(DeviceLines(c) + PeerLines(c))
              && Walk(DeviceLines(c)) == Device(true)
              && Walk(DeviceLines(c) + PeerLines(c)) == Peer(true)
              && DeviceLines(c) != [] && DeviceLines(c)[0] == "private_key=" + Hex(c.privateKey)
              && PeerLines(c) != [] && PeerLines(c)[0] == "public_key=" + Hex(c.peerPublicKey)
  {
    hide Build, PairAt, Hex, Walk, AddressLines, Enter, PairsBetween, Lines, Unlines, NoneMissing, PlaceAfter;
    if Build(c).Ok? {
      KeysPresent(c);
      KeysAreFirst(c);
      Places();
      LinesAre(c);
      BuiltText(c);
      WalkPairs(c, 19);
      WalkPairs(c, 24);
      BetweenSplits(c, 0, 19, 24);
      WalkAddresses(PairsBetween(c, 0, 24), c.allowedIPs);
      assert DeviceLines(c) + PeerLines(c) == PairsBetween(c, 0, 24) + AddressLines(c.allowedIPs);
    }
  }

  lemma Places()
    ensures PlaceAfter(19) == Device(true) && PlaceAfter(24) == Peer(true)
  {
  }

  lemma KeysAreFirst(c: Settings)
    requires NoneMissing(c)
    ensures DeviceLines(c) != [] && DeviceLines(c)[0] == "private_key=" + Hex(c.privateKey)
    ensures PeerLines(c) != [] && PeerLines(c)[0] == "public_key=" + Hex(c.peerPublicKey)
  {
    hide PairAt, Hex, PairsBetween, AddressLines;
    FirstPairs(c);
    FirstLine(c, 0, 19);
    FirstLine(c, 19, 24);
  }

  lemma BuiltText(c: Settings)
    ensures Build(c).Ok? ==> Build(c).value == Unlines(Lines(c))
  {
    hide Lines, Unlines, FirstError;
  }

  lemma KeysPresent(c: Settings)
    ensures Build(c).Ok? ==> NoneMissing(c)
  {
    hide Build, Base64.B64ToHex;
    BuildFails(c);
    Base64.HexKeepsKey(c.privateKey);
    Base64.HexKeepsKey(c.peerPublicKey);
  }

  lemma FirstPairs(c: Settings)
    ensures PairAt(c, 0) == Pair("private_key", Hex(c.privateKey))
    ensures PairAt(c, 19) == Pair("public_key", Hex(c.peerPublicKey))
    ensures "private_key" + "=" == "private_key=" && "public_key" + "=" == "public_key="
  {
  }

  lemma {:induction false} FirstLine(c: Settings, from: nat, to: nat)
    requires from < to <= 24 && PairAt(c, from).val != ""
    ensures PairsBetween(c, from, to) != []
    ensures PairsBetween(c, from, to)[0] == PairAt(c, from).key + "=" + PairAt(c, from).val
  {
    hide PairAt;
    if from + 1 < to {
      FirstLine(c, from, to - 1);
    } else {
      assert PairsBetween(c, from, from) == [];
    }
  }
}
