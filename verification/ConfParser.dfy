/** ParseConfig: a line-oriented parser for AmneziaWG .conf files (pkg/amnezia/config.go). */
module ConfParser {
  import opened Wrappers
  import opened Text
  import opened Settings

  // ---------------------------------------------------------------- one assignment

  datatype Section = NoSection | Interface | Peer

  // The section a field is read from.
  function HomeOf(f: Field): Section {
    match f
    case PeerPublicKey => Peer
    case PeerPSK => Peer
    case Endpoint => Peer
    case PersistentKA => Peer
    case _ => Interface
  }

  // The string or integer field a key names in a section: the labels of the two switches.
  function FieldOf(section: Section, key: string): (r: Option<Field>)
    ensures r.Some? ==> HomeOf(r.value) == section
  {
    match section
    case NoSection => None
    case Interface =>
      if key == "PrivateKey" then Some(PrivateKey)
      else if key == "Address" then Some(Address)
      else if key == "DNS" then Some(DNS)
      else if key == "MTU" then Some(MTU)
      else if key == "ListenPort" then Some(ListenPort)
      else if key == "Jc" then Some(Jc)
      else if key == "Jmin" then Some(Jmin)
      else if key == "Jmax" then Some(Jmax)
      else if key == "S1" then Some(S1)
      else if key == "S2" then Some(S2)
      else if key == "S3" then Some(S3)
      else if key == "S4" then Some(S4)
      else if key == "H1" then Some(H1)
      else if key == "H2" then Some(H2)
      else if key == "H3" then Some(H3)
      else if key == "H4" then Some(H4)
      else if key == "I1" then Some(I1)
      else if key == "I2" then Some(I2)
      else if key == "I3" then Some(I3)
      else if key == "I4" then Some(I4)
      else if key == "I5" then Some(I5)
      else None
    case Peer =>
      if key == "PublicKey" then Some(PeerPublicKey)
      else if key == "PresharedKey" then Some(PeerPSK)
      else if key == "Endpoint" then Some(Endpoint)
      else if key == "PersistentKeepalive" then Some(PersistentKA)
      else None
  }

  // The key of a field in a file.
  function KeyOf(f: Field): string {
    match f
    case PrivateKey => "PrivateKey"
    case Address => "Address"
    case DNS => "DNS"
    case MTU => "MTU"
    case ListenPort => "ListenPort"
    case Jc => "Jc"
    case Jmin => "Jmin"
    case Jmax => "Jmax"
    case S1 => "S1"
    case S2 => "S2"
    case S3 => "S3"
    case S4 => "S4"
    case H1 => "H1"
    case H2 => "H2"
    case H3 => "H3"
    case H4 => "H4"
    case I1 => "I1"
    case I2 => "I2"
    case I3 => "I3"
    case I4 => "I4"
    case I5 => "I5"
    case PeerPublicKey => "PublicKey"
    case PeerPSK => "PresharedKey"
    case Endpoint => "Endpoint"
    case PersistentKA => "PersistentKeepalive"
  }

  lemma NamedFieldHasKey(section: Section, key: string)
    ensures FieldOf(section, key).Some? ==> key == KeyOf(FieldOf(section, key).value)
  {
    hide FieldOf, KeyOf;
    if section == Interface {
      InterfaceFieldHasKey(key);
    } else {
      OtherFieldHasKey(section, key);
    }
  }

  lemma InterfaceFieldHasKey(key: string)
    ensures FieldOf(Interface, key).Some? ==> key == KeyOf(FieldOf(Interface, key).value)
  {
  }

  lemma OtherFieldHasKey(section: Section, key: string)
    requires section != Interface
    ensures FieldOf(section, key).Some? ==> key == KeyOf(FieldOf(section, key).value)
  {
  }

  lemma IntKeyNamesField(f: Field)
    requires IsInt(f) && HomeOf(f) == Interface
    ensures FieldOf(Interface, KeyOf(f)) == Some(f)
  {
  }

  lemma StringKeyNamesField(f: Field)
    requires !IsInt(f) && HomeOf(f) == Interface
    ensures FieldOf(Interface, KeyOf(f)) == Some(f)
  {
  }

  lemma PeerKeyNamesField(f: Field)
    requires HomeOf(f) == Peer
    ensures FieldOf(Peer, KeyOf(f)) == Some(f)
  {
  }

  // A key names a field exactly when it is the field's key, in the field's section.
  lemma NamesIff(section: Section, key: string, f: Field)
    ensures FieldOf(section, key) == Some(f) <==> section == HomeOf(f) && key == KeyOf(f)
  {
    hide FieldOf, KeyOf;
    NamedFieldHasKey(section, key);
    if section == HomeOf(f) && key == KeyOf(f) {
      if section == Peer {
        PeerKeyNamesField(f);
      } else if IsInt(f) {
        IntKeyNamesField(f);
      } else {
        StringKeyNamesField(f);
      }
    }
  }

  function Scanned(val: string, before: GoInt): GoInt {
    match ScanInt(val)
    case None => before
    case Some(v) => v
  }

  // The non-empty items of a comma-separated list, trimmed.
  function Kept(items: seq<string>): seq<string> {
    if items == [] then []
    else
      var ip := TrimSpace(items[|items| - 1]);
      Kept(items[..|items| - 1]) + if ip != "" then [ip] else []
  }

  function Addresses(val: string): seq<string> {
    Kept(Split(val, ','))
  }

  predicate IsAddressList(section: Section, key: string) {
    section == Peer && key == "AllowedIPs"
  }

  function Store(c: Settings, section: Section, key: string, val: string): Settings {
    match FieldOf(section, key)
    case Some(f) => if IsInt(f) then SetInt(c, f, Scanned(val, GetInt(c, f))) else SetString(c, f, val)
    case None => if IsAddressList(section, key) then c.(allowedIPs := c.allowedIPs + Addresses(val)) else c
  }

  // Any other key, and any key before the first section, is ignored.
  lemma OtherKeysIgnored(c: Settings, section: Section, key: string, val: string)
    requires forall f: Field | HomeOf(f) == section :: key != KeyOf(f)
    requires section == Peer ==> key != "AllowedIPs"
    ensures Store(c, section, key, val) == c
  {
    hide FieldOf, KeyOf;
    NamedFieldHasKey(section, key);
  }

  // ---------------------------------------------------------------- one line

  datatype Line = Inert | Header(section: Section) | Assignment(key: string, val: string)

  // What the parser makes of a line: blank lines, comments and anything that is neither a section
  // header nor has an equals sign mean nothing.
  function Classify(raw: string): Line {
    var line := TrimSpace(raw);
    if line == "" || line[0] == '#' then Inert
    else if ToLower(line) == "[interface]" then Header(Interface)
    else if ToLower(line) == "[peer]" then Header(Peer)
    else
      match Cut(line, '=')
      case None => Inert
      case Some(p) => Assignment(TrimSpace(p.key), TrimSpace(p.val))
  }

  datatype Parser = Parser(section: Section, cfg: Settings)

  function Step(p: Parser, line: Line): Parser {
    match line
    case Inert => p
    case Header(section) => p.(section := section)
    case Assignment(key, val) => p.(cfg := Store(p.cfg, p.section, key, val))
  }

  function ParseLines(lines: seq<string>): Parser {
    if lines == [] then Parser(NoSection, EMPTY)
    else Step(ParseLines(lines[..|lines| - 1]), Classify(lines[|lines| - 1]))
  }

  datatype ParseError = MissingPrivateKey | MissingPublicKey

  function Parse(data: string): Result<Settings, ParseError> {
    var cfg := ParseLines(Split(data, '\n')).cfg;
    if cfg.privateKey == "" then Err(MissingPrivateKey)
    else if cfg.peerPublicKey == "" then Err(MissingPublicKey)
    else Ok(cfg)
  }

  // ---------------------------------------------------------------- the parser as written

  // The list parsePeer accumulates, address by address.
  method CollectAddresses(val: string) returns (ips: seq<string>)
    ensures ips == Addresses(val)
  {
    var items := Split(val, ',');
    ips := [];
    for i := 0 to |items|
      invariant ips == Kept(items[..i])
    {
      assert items[..i + 1][..i] == items[..i];
      var ip := TrimSpace(items[i]);
      if ip != "" {
        ips := ips + [ip];
      }
    }
    assert items[..|items|] == items;
  }

  // The configuration object ParseConfig fills in.
  class Config {
    var settings: Settings

    constructor ()
      ensures settings == EMPTY
    {
      settings := EMPTY;
    }

    method ParseInterface(key: string, val: string)
      modifies this
      ensures settings == Store(old(settings), Interface, key, val)
    {
      hide FieldOf;
      match FieldOf(Interface, key) {
        case Some(PrivateKey) => settings := settings.(privateKey := val);
        case Some(Address) => settings := settings.(address := val);
        case Some(DNS) => settings := settings.(dns := val);
        case Some(MTU) => settings := settings.(mtu := Scanned(val, settings.mtu));
        case Some(ListenPort) => settings := settings.(listenPort := Scanned(val, settings.listenPort));
        case Some(Jc) => settings := settings.(jc := Scanned(val, settings.jc));
        case Some(Jmin) => settings := settings.(jmin := Scanned(val, settings.jmin));
        case Some(Jmax) => settings := settings.(jmax := Scanned(val, settings.jmax));
        case Some(S1) => settings := settings.(s1 := Scanned(val, settings.s1));
        case Some(S2) => settings := settings.(s2 := Scanned(val, settings.s2));
        case Some(S3) => settings := settings.(s3 := Scanned(val, settings.s3));
        case Some(S4) => settings := settings.(s4 := Scanned(val, settings.s4));
        case Some(H1) => settings := settings.(h1 := val);
        case Some(H2) => settings := settings.(h2 := val);
        case Some(H3) => settings := settings.(h3 := val);
        case Some(H4) => settings := settings.(h4 := val);
        case Some(I1) => settings := settings.(i1 := val);
        case Some(I2) => settings := settings.(i2 := val);
        case Some(I3) => settings := settings.(i3 := val);
        case Some(I4) => settings := settings.(i4 := val);
        case Some(I5) => settings := settings.(i5 := val);
        case None =>
      }
    }

    method ParsePeer(key: string, val: string)
      modifies this
      ensures settings == Store(old(settings), Peer, key, val)
    {
      hide FieldOf;
      match FieldOf(Peer, key) {
        case Some(PeerPublicKey) => settings := settings.(peerPublicKey := val);
        case Some(PeerPSK) => settings := settings.(peerPSK := val);
        case Some(Endpoint) => settings := settings.(endpoint := val);
        case Some(PersistentKA) => settings := settings.(persistentKA := Scanned(val, settings.persistentKA));
        case None =>
          if key == "AllowedIPs" {
            var ips := CollectAddresses(val);
            settings := settings.(allowedIPs := settings.allowedIPs + ips);
          }
      }
    }
  }

  method ParseConfig(data: string) returns (r: Result<Config, ParseError>)
    ensures r.Ok? <==> Parse(data).Ok?
    ensures r.Ok? ==> fresh(r.value) && r.value.settings == Parse(data).value
    ensures r.Err? ==> r.error == Parse(data).error
  {
    var cfg := new Config();
    var section := NoSection;
    var lines := Split(data, '\n');
    for i := 0 to |lines|
      invariant fresh(cfg)
      invariant ParseLines(lines[..i]) == Parser(section, cfg.settings)
    {
      assert lines[..i + 1][..i] == lines[..i];
      var line := TrimSpace(lines[i]);
      if line == "" || line[0] == '#' {
        continue;
      }
      var lower := ToLower(line);
      if lower == "[interface]" {
        section := Interface;
        continue;
      }
      if lower == "[peer]" {
        section := Peer;
        continue;
      }
      var cut := Cut(line, '=');
      if cut.None? {
        continue;
      }
      var key, val := TrimSpace(cut.value.key), TrimSpace(cut.value.val);
      match section {
        case Interface => cfg.ParseInterface(key, val);
        case Peer => cfg.ParsePeer(key, val);
        case NoSection =>
      }
    }
    assert lines[..|lines|] == lines;
    if cfg.settings.privateKey == "" {
      return Err(MissingPrivateKey);
    }
    if cfg.settings.peerPublicKey == "" {
      return Err(MissingPublicKey);
    }
    return Ok(cfg);
  }

  // ---------------------------------------------------------------- inert lines

  lemma {:induction false} InertLine(before: seq<string>, line: string, after: seq<string>)
    requires Classify(line).Inert?
    ensures ParseLines(before + [line] + after) == ParseLines(before + after)
    decreases |after|
  {
    var whole := before + [line] + after;
    if after == [] {
      assert whole[..|whole| - 1] == before && before + after == before;
    } else {
      var n := |after| - 1;
      InertLine(before, line, after[..n]);
      assert whole[..|whole| - 1] == before + [line] + after[..n];
      assert (before + after)[..|before + after| - 1] == before + after[..n];
    }
  }

  // The text of a file with these lines.
  function JoinLines(lines: seq<string>): string
    requires lines != []
  {
    if |lines| == 1 then lines[0] else lines[0] + "\n" + JoinLines(lines[1..])
  }

  lemma {:induction false} SplitJoin(lines: seq<string>)
    requires lines != [] && OneLineEach(lines)
    ensures Split(JoinLines(lines), '\n') == lines
  {
    if |lines| == 1 {
      SplitOne(lines[0], '\n');
    } else {
      SplitFirst(lines[0], '\n', JoinLines(lines[1..]));
      SplitJoin(lines[1..]);
    }
  }

  ghost predicate OneLineEach(lines: seq<string>) {
    forall i | 0 <= i < |lines| :: '\n' !in lines[i]
  }

  lemma OneLineInsert(before: seq<string>, line: string, after: seq<string>)
    requires OneLineEach(before + after) && '\n' !in line
    ensures OneLineEach(before + [line] + after)
  {
    var whole := before + [line] + after;
    forall i | 0 <= i < |whole|
      ensures '\n' !in whole[i]
    {
      if i < |before| {
        assert whole[i] == (before + after)[i];
      } else if i > |before| {
        assert whole[i] == (before + after)[i - 1];
      }
    }
  }

  // Inserting or deleting a line that means nothing, anywhere in a file, changes nothing.
  lemma InertLineInFile(before: seq<string>, line: string, after: seq<string>)
    requires before + after != [] && OneLineEach(before + after)
    requires '\n' !in line && Classify(line).Inert?
    ensures Parse(JoinLines(before + [line] + after)) == Parse(JoinLines(before + after))
  {
    OneLineInsert(before, line, after);
    InertLine(before, line, after);
    hide Classify, ParseLines, JoinLines, Split;
    SplitJoin(before + [line] + after);
    SplitJoin(before + after);
  }

  // ---------------------------------------------------------------- last writer wins

  // The section a line stands in: the last header before it.
  function SectionAfter(lines: seq<string>): Section {
    if lines == [] then NoSection
    else
      match Classify(lines[|lines| - 1])
      case Header(section) => section
      case _ => SectionAfter(lines[..|lines| - 1])
  }

  // The line at i assigns to the field.
  predicate Assigns(lines: seq<string>, i: int, f: Field)
    requires 0 <= i < |lines|
  {
    && Classify(lines[i]).Assignment?
    && Classify(lines[i]).key == KeyOf(f)
    && SectionAfter(lines[..i]) == HomeOf(f)
  }

  // Line i is the last that matters to a string field, or -1 for none.
  ghost predicate LastAssigned(lines: seq<string>, f: Field, i: int) {
    && -1 <= i < |lines|
    && (i >= 0 ==> Assigns(lines, i, f))
    && forall j | i < j < |lines| :: !Assigns(lines, j, f)
  }

  // Line i is the last that matters to an integer field: the last whose value scans.
  ghost predicate LastScanned(lines: seq<string>, f: Field, i: int) {
    && -1 <= i < |lines|
    && (i >= 0 ==> Assigns(lines, i, f) && ScanInt(Classify(lines[i]).val).Some?)
    && forall j | i < j < |lines| :: Assigns(lines, j, f) ==> ScanInt(Classify(lines[j]).val).None?
  }

  lemma {:induction false} SectionTracked(lines: seq<string>)
    ensures ParseLines(lines).section == SectionAfter(lines)
  {
    if lines != [] {
      SectionTracked(lines[..|lines| - 1]);
    }
  }

  lemma StoreString(c: Settings, section: Section, key: string, val: string, g: Field)
    requires !IsInt(g)
    ensures GetString(Store(c, section, key, val), g) ==
            if FieldOf(section, key) == Some(g) then val else GetString(c, g)
  {
    hide FieldOf, GetString, SetString, SetInt, GetInt;
    match FieldOf(section, key)
    case Some(f) =>
      if IsInt(f) {
        SetIntKeeps(c, f, Scanned(val, GetInt(c, f)));
      } else {
        SetGetString(c, f, val, g);
      }
    case None => ListKeepsFields(c, c.allowedIPs + Addresses(val), g);
  }

  lemma StoreInt(c: Settings, section: Section, key: string, val: string, g: Field)
    requires IsInt(g)
    ensures GetInt(Store(c, section, key, val), g) ==
            if FieldOf(section, key) == Some(g) then Scanned(val, GetInt(c, g)) else GetInt(c, g)
  {
    hide FieldOf, GetString, SetString, SetInt, GetInt;
    match FieldOf(section, key)
    case Some(f) =>
      if IsInt(f) {
        SetGetInt(c, f, Scanned(val, GetInt(c, f)), g);
      } else {
        SetStringKeeps(c, f, val);
      }
    case None => ListKeepsFields(c, c.allowedIPs + Addresses(val), g);
  }

  lemma ListKeepsFields(c: Settings, ips: seq<string>, g: Field)
    ensures IsInt(g) ==> GetInt(c.(allowedIPs := ips), g) == GetInt(c, g)
    ensures !IsInt(g) ==> GetString(c.(allowedIPs := ips), g) == GetString(c, g)
  {
  }

  lemma SamePrefixAssigns(lines: seq<string>, n: nat, f: Field)
    requires n <= |lines|
    ensures forall j | 0 <= j < n :: Assigns(lines[..n], j, f) == Assigns(lines, j, f)
  {
    hide Classify, KeyOf;
    forall j | 0 <= j < n
      ensures Assigns(lines[..n], j, f) == Assigns(lines, j, f)
    {
      assert lines[..n][..j] == lines[..j];
    }
  }

  // One more line changes a field only if it assigns to it.
  lemma LastLine(lines: seq<string>, f: Field)
    requires lines != []
    ensures var n := |lines| - 1;
            var before, after := ParseLines(lines[..n]).cfg, ParseLines(lines).cfg;
            var hit := Assigns(lines, n, f);
            && (!IsInt(f) ==> GetString(after, f) == if hit then Classify(lines[n]).val else GetString(before, f))
            && (IsInt(f) ==> GetInt(after, f) ==
                             if hit then Scanned(Classify(lines[n]).val, GetInt(before, f)) else GetInt(before, f))
  {
    hide Classify, FieldOf, KeyOf, Store, GetString, GetInt;
    var n := |lines| - 1;
    var p, line := ParseLines(lines[..n]), Classify(lines[n]);
    SectionTracked(lines[..n]);
    if line.Assignment? {
      NamesIff(p.section, line.key, f);
      if IsInt(f) {
        StoreInt(p.cfg, p.section, line.key, line.val, f);
      } else {
        StoreString(p.cfg, p.section, line.key, line.val, f);
      }
    }
  }

  lemma NothingRead(f: Field)
    ensures IsInt(f) ==> GetInt(ParseLines([]).cfg, f) == 0
    ensures !IsInt(f) ==> GetString(ParseLines([]).cfg, f) == ""
  {
  }

  lemma LastAssignedPrefix(lines: seq<string>, f: Field, i: int)
    requires lines != [] && LastAssigned(lines, f, i) && i < |lines| - 1
    ensures LastAssigned(lines[..|lines| - 1], f, i)
  {
    SamePrefixAssigns(lines, |lines| - 1, f);
    hide Assigns;
  }

  lemma LastScannedPrefix(lines: seq<string>, f: Field, i: int)
    requires lines != [] && LastScanned(lines, f, i) && i < |lines| - 1
    ensures LastScanned(lines[..|lines| - 1], f, i)
  {
    SamePrefixAssigns(lines, |lines| - 1, f);
    hide Assigns, Classify, ScanInt;
  }

  // The last line of a file either decides a string field or leaves it alone.
  lemma LastLineAssigns(lines: seq<string>, f: Field, i: int)
    requires !IsInt(f) && lines != [] && LastAssigned(lines, f, i)
    ensures GetString(ParseLines(lines).cfg, f) ==
            if i == |lines| - 1 then Classify(lines[i]).val else GetString(ParseLines(lines[..|lines| - 1]).cfg, f)
  {
    LastLine(lines, f);
    hide Assigns, Classify, ParseLines, GetString;
  }

  // A string field holds the value of the last line of its section that names it.
  lemma {:induction false} LastStringWins(lines: seq<string>, f: Field, i: int)
    requires !IsInt(f) && LastAssigned(lines, f, i)
    ensures GetString(ParseLines(lines).cfg, f) == if i < 0 then "" else Classify(lines[i]).val
  {
    if lines == [] {
      NothingRead(f);
    } else {
      LastLineAssigns(lines, f, i);
      if i < |lines| - 1 {
        LastAssignedPrefix(lines, f, i);
        LastStringWins(lines[..|lines| - 1], f, i);
      }
    }
  }

  // The last line of a file either decides an integer field or leaves it alone.
  lemma LastLineScans(lines: seq<string>, f: Field, i: int)
    requires IsInt(f) && lines != [] && LastScanned(lines, f, i)
    ensures GetInt(ParseLines(lines).cfg, f) ==
            if i == |lines| - 1 then ScanInt(Classify(lines[i]).val).value
            else GetInt(ParseLines(lines[..|lines| - 1]).cfg, f)
  {
    LastLine(lines, f);
    hide Assigns, Classify, ParseLines, GetInt, ScanInt;
    var n := |lines| - 1;
    assert i < n && Assigns(lines, n, f) ==> ScanInt(Classify(lines[n]).val).None?;
  }

  // An integer field holds the value of the last line of its section that names it with a number.
  lemma {:induction false} LastIntWins(lines: seq<string>, f: Field, i: int)
    requires IsInt(f) && LastScanned(lines, f, i)
    ensures GetInt(ParseLines(lines).cfg, f) == if i < 0 then 0 else ScanInt(Classify(lines[i]).val).value
  {
    if lines == [] {
      NothingRead(f);
    } else {
      LastLineScans(lines, f, i);
      if i < |lines| - 1 {
        LastScannedPrefix(lines, f, i);
        LastIntWins(lines[..|lines| - 1], f, i);
      }
    }
  }

  // Every address of every AllowedIPs line of a peer section, in order.
  function ListedAddresses(lines: seq<string>): seq<string> {
    if lines == [] then []
    else
      var n := |lines| - 1;
      var line := Classify(lines[n]);
      ListedAddresses(lines[..n])
      + if line.Assignment? && IsAddressList(SectionAfter(lines[..n]), line.key) then Addresses(line.val) else []
  }

  lemma AddressKeyIsNoField(section: Section, key: string)
    requires IsAddressList(section, key)
    ensures FieldOf(section, key) == None
  {
  }

  lemma {:induction false} AddressesAccumulate(lines: seq<string>)
    ensures ParseLines(lines).cfg.allowedIPs == ListedAddresses(lines)
  {
    if lines != [] {
      var n := |lines| - 1;
      var p, line := ParseLines(lines[..n]), Classify(lines[n]);
      SectionTracked(lines[..n]);
      AddressesAccumulate(lines[..n]);
      if line.Assignment? {
        if IsAddressList(p.section, line.key) {
          AddressKeyIsNoField(p.section, line.key);
        }
        hide FieldOf, Classify;
        match FieldOf(p.section, line.key)
        case Some(f) =>
          if IsInt(f) {
            SetIntKeeps(p.cfg, f, Scanned(line.val, GetInt(p.cfg, f)));
          } else {
            SetStringKeeps(p.cfg, f, line.val);
          }
        case None =>
      }
    }
  }

  // ---------------------------------------------------------------- no value spans lines

  // No string the configuration holds contains a line break.
  ghost predicate OneLine(c: Settings) {
    && (forall f: Field :: !IsInt(f) ==> '\n' !in GetString(c, f))
    && OneLineEach(c.allowedIPs)
  }

  lemma ClassifyOneLine(raw: string)
    requires '\n' !in raw
    ensures Classify(raw).Assignment? ==> '\n' !in Classify(raw).val
  {
    var line := TrimSpace(raw);
    TrimParts(raw);
    CutParts(line, '=');
    if Cut(line, '=').Some? {
      TrimParts(Cut(line, '=').value.val);
    }
  }

  lemma {:induction false} KeptOneLine(items: seq<string>)
    requires OneLineEach(items)
    ensures OneLineEach(Kept(items))
  {
    if items != [] {
      KeptOneLine(items[..|items| - 1]);
      TrimParts(items[|items| - 1]);
    }
  }

  lemma StoreOneLine(c: Settings, section: Section, key: string, val: string)
    requires OneLine(c) && '\n' !in val
    ensures OneLine(Store(c, section, key, val))
  {
    var c' := Store(c, section, key, val);
    SplitPieces(val, ',');
    KeptOneLine(Split(val, ','));
    forall f: Field | !IsInt(f)
      ensures '\n' !in GetString(c', f)
    {
      StoreString(c, section, key, val, f);
    }
    hide FieldOf;
    match FieldOf(section, key)
    case Some(f) =>
      if IsInt(f) {
        SetIntKeeps(c, f, Scanned(val, GetInt(c, f)));
      } else {
        SetStringKeeps(c, f, val);
      }
    case None =>
  }

  lemma {:induction false} LinesOneLine(lines: seq<string>)
    requires OneLineEach(lines)
    ensures OneLine(ParseLines(lines).cfg)
  {
    if lines != [] {
      var n := |lines| - 1;
      LinesOneLine(lines[..n]);
      ClassifyOneLine(lines[n]);
      var p, line := ParseLines(lines[..n]), Classify(lines[n]);
      if line.Assignment? {
        StoreOneLine(p.cfg, p.section, line.key, line.val);
      }
    }
  }

  // Whatever the file, no value of an accepted configuration contains a line break.
  lemma ParsedIsOneLine(data: string)
    requires Parse(data).Ok?
    ensures OneLine(Parse(data).value)
  {
    SplitPieces(data, '\n');
    LinesOneLine(Split(data, '\n'));
  }
}
