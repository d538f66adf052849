/**
 The UAPI conversation of pkg/amnezia/uapi.go, without the socket: what is sent, and what is made of
 the lines that come back.
 */
module Uapi {
  import opened Wrappers
  import opened Text
  import opened Settings
  import opened UapiFormat
  import opened UapiReader
  import ConfParser

  // ---------------------------------------------------------------- framing

  predicate HasSuffix(s: string, c: char) {
    s != "" && s[|s| - 1] == c
  }

  function SetMessage(config: string): string {
    "set=1\n" + config + (if HasSuffix(config, '\n') then "" else "\n") + "\n"
  }

  // Whatever the text, the message ends its last line and then has one empty line.
  lemma SetMessageText(config: string)
    ensures SetMessage(config) == "set=1\n" + config + "\n"
            <==> config != "" && config[|config| - 1] == '\n'
    ensures SetMessage(config) == "set=1\n" + config + "\n" + "\n"
            <==> config == "" || config[|config| - 1] != '\n'
  {
    if HasSuffix(config, '\n') {
      assert config + "" == config;
    }
  }

  // A sent text is a sequence of lines, each ended by a line break.
  ghost predicate IsFramed(text: string, lines: seq<string>) {
    text == Unlines(lines) && Split(text, '\n') == lines + [""]
  }

  lemma FlagsAreLast(c: Settings)
    ensures Lines(c) != []
  {
    ItemsPrintable();
    var n := |ITEMS| - 1;
    assert ITEMS[n] == Literal("replace_allowed_ips=true");
    assert ItemsLines(c, ITEMS) == ItemsLines(c, ITEMS[..n]) + [ITEMS[n].line];
  }

  lemma MessageOfLines(lines: seq<string>)
    requires lines != []
    ensures SetMessage(Unlines(lines)) == Unlines(["set=1"] + lines + [""])
  {
    var body := Unlines(lines);
    assert HasSuffix(body, '\n');
    UnlinesOne("set=1");
    UnlinesOne("");
    UnlinesConcat(["set=1"], lines);
    UnlinesConcat(["set=1"] + lines, [""]);
    assert "set=1" + "\n" == "set=1\n" && "" + "\n" == "\n";
    hide Unlines;
    assert SetMessage(body) == "set=1\n" + body + "" + "\n";
    assert body + "" == body;
  }

  // The set message of a configuration is its lines after "set=1" and then one empty line: no other
  // line of it is empty, so the receiver sees the end of the message exactly at its end.
  lemma SetMessageFrames(c: Settings)
    requires ConfParser.OneLine(c)
    ensures Build(c).Ok? ==> IsFramed(SetMessage(Build(c).value), ["set=1"] + Lines(c) + [""])
    ensures GoodLines(["set=1"] + Lines(c))
  {
    AllLinesGood(c);
    FlagsAreLast(c);
    MessageOfLines(Lines(c));
    assert '\n' !in "set=1";
    GoodConcat(["set=1"], Lines(c));
    SplitUnlines(["set=1"] + Lines(c) + [""]);
  }

  // The same for every file the parser accepts.
  lemma FileFrames(data: string)
    ensures var c := ConfParser.Parse(data);
            c.Ok? && Build(c.value).Ok? ==>
              && IsFramed(SetMessage(Build(c.value).value), ["set=1"] + Lines(c.value) + [""])
              && GoodLines(["set=1"] + Lines(c.value))
  {
    hide ConfParser.Parse, ConfParser.OneLine, Build, Lines, GoodLines, IsFramed;
    if ConfParser.Parse(data).Ok? {
      ConfParser.ParsedIsOneLine(data);
      SetMessageFrames(ConfParser.Parse(data).value);
    }
  }

  // ---------------------------------------------------------------- replies

  const ERRNO := "errno="

  predicate IsErrno(line: string) {
    |line| >= 6 && line[..6] == ERRNO
  }

  function Code(line: string): int
    requires IsErrno(line)
  {
    match ScanInt(line[6..])
    case None => 0
    case Some(v) => v
  }

  datatype ReplyError = Closed | Errno(code: int)

  // The first errno line of a reply decides; a reply without one fails.
  function Verdict(reply: seq<string>): Result<(), ReplyError> {
    if reply == [] then Err(Closed)
    else if IsErrno(reply[0]) then if Code(reply[0]) != 0 then Err(Errno(Code(reply[0]))) else Ok(())
    else Verdict(reply[1..])
  }

  // The lines before the first errno line.
  function Body(reply: seq<string>): seq<string> {
    if reply == [] || IsErrno(reply[0]) then [] else [reply[0]] + Body(reply[1..])
  }

  // The server ends a reply with "errno=" and a code: after any lines that do not begin that way, a
  // zero makes the lines the answer, anything else is the error, whatever follows. A reply that
  // ends without such a line is an error of its own.
  lemma {:induction false} ReplyMeans(lines: seq<string>, code: GoInt, rest: seq<string>)
    requires forall i | 0 <= i < |lines| :: !("errno=" <= lines[i])
    ensures var reply := lines + ["errno=" + Shown(code)] + rest;
            && Verdict(reply) == (if code == 0 then Ok(()) else Err(Errno(code)))
            && Body(reply) == lines
    ensures Verdict(lines) == Err(Closed)
  {
    var last := "errno=" + Shown(code);
    var reply := lines + [last] + rest;
    if lines == [] {
      assert last[..6] == "errno=" && last[6..] == Shown(code);
      ScanShown(code);
      assert reply[0] == last;
    } else {
      ReplyMeans(lines[1..], code, rest);
      NotErrno(lines[0]);
      assert reply[0] == lines[0] && reply[1..] == lines[1..] + [last] + rest;
    }
  }

  lemma NotErrno(line: string)
    ensures IsErrno(line) <==> "errno=" <= line
  {
  }

  datatype PeerStatus = PeerStatus(lastHandshakeSec: GoInt, txBytes: GoInt, rxBytes: GoInt)

  function StatusLine(ps: PeerStatus, line: string): PeerStatus {
    match Cut(line, '=')
    case None => ps
    case Some(p) =>
      if p.key == "last_handshake_time_sec" then
        ps.(lastHandshakeSec := ConfParser.Scanned(p.val, ps.lastHandshakeSec))
      else if p.key == "tx_bytes" then ps.(txBytes := ConfParser.Scanned(p.val, ps.txBytes))
      else if p.key == "rx_bytes" then ps.(rxBytes := ConfParser.Scanned(p.val, ps.rxBytes))
      else ps
  }

  function StatusFrom(ps: PeerStatus, lines: seq<string>): PeerStatus {
    if lines == [] then ps else StatusLine(StatusFrom(ps, lines[..|lines| - 1]), lines[|lines| - 1])
  }

  const NO_STATUS := PeerStatus(0, 0, 0)

  // ---------------------------------------------------------------- the connection

  // What has been written to the socket, and the lines still to be read from it.
  class Connection {
    var sent: string
    var inbox: seq<string>

    constructor (inbox: seq<string>)
      ensures sent == "" && this.inbox == inbox
    {
      sent, this.inbox := "", inbox;
    }

    method ReadErrno() returns (r: Result<(), ReplyError>)
      modifies this`inbox
      ensures r == Verdict(old(inbox))
    {
      while inbox != []
        invariant Verdict(inbox) == Verdict(old(inbox))
        decreases |inbox|
      {
        var line := inbox[0];
        if line != "" && IsErrno(line) {
          var code := Code(line);
          inbox := inbox[1..];
          if inbox != [] {
            inbox := inbox[1..];
          }
          if code != 0 {
            return Err(Errno(code));
          }
          return Ok(());
        }
        inbox := inbox[1..];
      }
      return Err(Closed);
    }

    method Set(config: string) returns (r: Result<(), ReplyError>)
      modifies this
      ensures sent == old(sent) + SetMessage(config)
      ensures r == Verdict(old(inbox))
    {
      ghost var before := sent;
      sent := sent + "set=1\n";
      sent := sent + config;
      if !HasSuffix(config, '\n') {
        sent := sent + "\n";
      }
      sent := sent + "\n";
      assert sent == before + SetMessage(config);
      r := ReadErrno();
    }

    method Get() returns (r: Result<seq<string>, ReplyError>)
      modifies this
      ensures sent == old(sent) + "get=1\n\n"
      ensures r == match Verdict(old(inbox)) case Ok(_) => Ok(Body(old(inbox))) case Err(e) => Err(e)
    {
      sent := sent + "get=1\n\n";
      var lines := [];
      while inbox != []
        invariant sent == old(sent) + "get=1\n\n"
        invariant Verdict(inbox) == Verdict(old(inbox)) && lines + Body(inbox) == Body(old(inbox))
        decreases |inbox|
      {
        var line := inbox[0];
        inbox := inbox[1..];
        if IsErrno(line) {
          var code := Code(line);
          if inbox != [] {
            inbox := inbox[1..];
          }
          if code != 0 {
            return Err(Errno(code));
          }
          assert lines + [] == lines;
          return Ok(lines);
        }
        lines := lines + [line];
      }
      return Err(Closed);
    }
  }

  method ReadStatus(lines: seq<string>) returns (ps: PeerStatus)
    ensures ps == StatusFrom(NO_STATUS, lines)
  {
    ps := NO_STATUS;
    for i := 0 to |lines|
      invariant ps == StatusFrom(NO_STATUS, lines[..i])
    {
      assert lines[..i + 1][..i] == lines[..i];
      var cut := Cut(lines[i], '=');
      if cut.None? {
        continue;
      }
      var key, val := cut.value.key, cut.value.val;
      if key == "last_handshake_time_sec" {
        ps := ps.(lastHandshakeSec := ConfParser.Scanned(val, ps.lastHandshakeSec));
      } else if key == "tx_bytes" {
        ps := ps.(txBytes := ConfParser.Scanned(val, ps.txBytes));
      } else if key == "rx_bytes" {
        ps := ps.(rxBytes := ConfParser.Scanned(val, ps.rxBytes));
      }
    }
    assert lines[..|lines|] == lines;
  }

  // ---------------------------------------------------------------- which peer a status is about

  datatype Counter = Handshake | Sent | Received

  function Key(c: Counter): string {
    match c
    case Handshake => "last_handshake_time_sec"
    case Sent => "tx_bytes"
    case Received => "rx_bytes"
  }

  function Get(ps: PeerStatus, c: Counter): GoInt {
    match c
    case Handshake => ps.lastHandshakeSec
    case Sent => ps.txBytes
    case Received => ps.rxBytes
  }

  // The value that the line gives to the counter, if it gives one.
  function Given(line: string, c: Counter): Option<GoInt> {
    match Cut(line, '=')
    case None => None
    case Some(p) => if p.key == Key(c) then ScanInt(p.val) else None
  }

  // Line i is the last one that gives the counter a value; -1 when no line does.
  ghost predicate LastGives(lines: seq<string>, c: Counter, i: int) {
    && -1 <= i < |lines|
    && (i >= 0 ==> Given(lines[i], c).Some?)
    && (forall j | i < j < |lines| :: Given(lines[j], c).None?)
  }

  lemma KeysDiffer(c: Counter, d: Counter)
    ensures Key(c) == Key(d) <==> c == d
  {
    assert |Key(Handshake)| == 23 && Key(Sent)[0] == 't' && Key(Received)[0] == 'r';
  }

  lemma LineSets(ps: PeerStatus, line: string, c: Counter)
    ensures Get(StatusLine(ps, line), c) ==
            match Given(line, c) case None => Get(ps, c) case Some(v) => v
  {
    hide Key, Cut, ScanInt;
    KeyTexts();
    KeysDiffer(c, Handshake);
    KeysDiffer(c, Sent);
    KeysDiffer(c, Received);
  }

  lemma KeyTexts()
    ensures Key(Handshake) == "last_handshake_time_sec" && Key(Sent) == "tx_bytes" && Key(Received) == "rx_bytes"
  {
  }

  // Whatever the reader starts from, it ends with the last value given, or with what it started from.
  lemma {:induction false} LastValueWins(ps: PeerStatus, lines: seq<string>, c: Counter, i: int)
    requires LastGives(lines, c, i)
    ensures Get(StatusFrom(ps, lines), c) == if i < 0 then Get(ps, c) else Given(lines[i], c).value
  {
    hide Given, StatusLine, Get;
    if lines != [] {
      var n := |lines| - 1;
      LineSets(StatusFrom(ps, lines[..n]), lines[n], c);
      if i < n {
        assert Given(lines[n], c).None?;
        LastValueWins(ps, lines[..n], c, i);
      }
    }
  }

  // So every counter of a reported status is the last value that the reply gives for it, 0 without one.
  lemma StatusIsLastGiven(lines: seq<string>, c: Counter, i: int)
    requires LastGives(lines, c, i)
    ensures Get(StatusFrom(NO_STATUS, lines), c) == if i < 0 then 0 else Given(lines[i], c).value
  {
    LastValueWins(NO_STATUS, lines, c, i);
  }

  lemma {:induction false} LastGiver(lines: seq<string>, c: Counter) returns (i: int)
    ensures LastGives(lines, c, i)
  {
    hide Given;
    i := |lines| - 1;
    if lines != [] && Given(lines[i], c).None? {
      i := LastGiver(lines[..i], c);
    }
  }

  lemma {:induction false} StatusConcat(ps: PeerStatus, a: seq<string>, b: seq<string>)
    ensures StatusFrom(ps, a + b) == StatusFrom(StatusFrom(ps, a), b)
    decreases |b|
  {
    if b == [] {
      assert a + b == a;
    } else {
      var n := |b| - 1;
      assert (a + b)[..|a + b| - 1] == a + b[..n];
      StatusConcat(ps, a, b[..n]);
    }
  }

  // Each peer of a reply begins with its public key.
  predicate StartsPeer(line: string) {
    match Cut(line, '=')
    case None => false
    case Some(p) => p.key == "public_key"
  }

  // The lines up to the start of a peer.
  function UntilPeer(lines: seq<string>): (r: seq<string>)
    ensures r <= lines
  {
    if lines == [] || StartsPeer(lines[0]) then [] else [lines[0]] + UntilPeer(lines[1..])
  }

  // The device and its first peer: everything up to the start of the second.
  function FirstPeer(lines: seq<string>): (r: seq<string>)
    ensures r <= lines
  {
    var device := UntilPeer(lines);
    var n := |device|;
    if n == |lines| then lines
    else
      assert lines[..n + 1] == device + [lines[n]];
      device + [lines[n]] + UntilPeer(lines[n + 1..])
  }

  // No counter that a later peer gives differs, where it is given last, from the first peer's.
  ghost predicate LaterPeersAgree(lines: seq<string>) {
    var later := lines[|FirstPeer(lines)|..];
    forall c, i | LastGives(later, c, i) && i >= 0 ::
      Given(later[i], c).value == Get(StatusFrom(NO_STATUS, FirstPeer(lines)), c)
  }

  // The first peer's status is what is reported exactly when the later peers give nothing else.
  lemma FirstPeerIsReportedIff(lines: seq<string>)
    ensures StatusFrom(NO_STATUS, lines) == StatusFrom(NO_STATUS, FirstPeer(lines)) <==> LaterPeersAgree(lines)
  {
    var first, later := FirstPeer(lines), lines[|FirstPeer(lines)|..];
    var ps := StatusFrom(NO_STATUS, first);
    assert first + later == lines;
    StatusConcat(NO_STATUS, first, later);
    hide FirstPeer, Given, StatusFrom, LastGives;
    forall c, i | LastGives(later, c, i)
      ensures i >= 0 ==> i < |later| && Given(later[i], c).Some?
      ensures i >= 0 ==> Get(StatusFrom(ps, later), c) == Given(later[i], c).value
      ensures i < 0 ==> Get(StatusFrom(ps, later), c) == Get(ps, c)
    {
      LastGivesMeans(later, c, i);
      LastValueWins(ps, later, c, i);
    }
    if LaterPeersAgree(lines) {
      forall c: Counter
        ensures Get(StatusFrom(ps, later), c) == Get(ps, c)
      {
        var i := LastGiver(later, c);
      }
      SameCounters(StatusFrom(ps, later), ps);
    }
  }

  lemma LastGivesMeans(lines: seq<string>, c: Counter, i: int)
    requires LastGives(lines, c, i)
    ensures i >= 0 ==> i < |lines| && Given(lines[i], c).Some?
  {
  }

  lemma SameCounters(a: PeerStatus, b: PeerStatus)
    requires forall c :: Get(a, c) == Get(b, c)
    ensures a == b
  {
    assert Get(a, Handshake) == Get(b, Handshake);
    assert Get(a, Sent) == Get(b, Sent) && Get(a, Received) == Get(b, Received);
  }

  ghost predicate Gives(lines: seq<string>, c: Counter) {
    exists i | 0 <= i < |lines| :: Given(lines[i], c).Some?
  }

  // One peer's three counters, each read from the line of its name.
  lemma CountersRead(handshake: GoInt, sent: GoInt, received: GoInt)
    ensures StatusFrom(NO_STATUS, ["last_handshake_time_sec" + ['='] + Shown(handshake),
                                   "tx_bytes" + ['='] + Shown(sent), "rx_bytes" + ['='] + Shown(received)])
            == PeerStatus(handshake, sent, received)
  {
    hide Cut, ScanInt, Shown;
    var a := "last_handshake_time_sec" + ['='] + Shown(handshake);
    var b, c := "tx_bytes" + ['='] + Shown(sent), "rx_bytes" + ['='] + Shown(received);
    assert '=' !in "last_handshake_time_sec" && '=' !in "tx_bytes" && '=' !in "rx_bytes";
    CutAtFirst("last_handshake_time_sec", '=', Shown(handshake));
    CutAtFirst("tx_bytes", '=', Shown(sent));
    CutAtFirst("rx_bytes", '=', Shown(received));
    ScanShown(handshake);
    ScanShown(sent);
    ScanShown(received);
    KeyTexts();
    assert [a, b, c][..2] == [a, b] && [a, b][..1] == [a] && [a][..0] == [];
    assert StatusFrom(NO_STATUS, [a]) == StatusLine(NO_STATUS, a);
    assert StatusFrom(NO_STATUS, [a, b]) == StatusLine(StatusFrom(NO_STATUS, [a]), b);
  }

  // In a reply about several peers, of which the rest gives all counters, nothing of the first is
  // reported.
  lemma LastPeerIsReported(first: seq<string>, second: seq<string>)
    requires forall c :: Gives(second, c)
    ensures StatusFrom(NO_STATUS, first + second) == StatusFrom(NO_STATUS, second)
  {
    StatusConcat(NO_STATUS, first, second);
    var ps := StatusFrom(NO_STATUS, first);
    forall c: Counter
      ensures Get(StatusFrom(ps, second), c) == Get(StatusFrom(NO_STATUS, second), c)
    {
      assert Gives(second, c);
      var i := LastGiver(second, c);
      LastValueWins(ps, second, c, i);
      LastValueWins(NO_STATUS, second, c, i);
    }
    SameCounters(StatusFrom(ps, second), StatusFrom(NO_STATUS, second));
  }

  function PeerLine(key: string): string {
    "public_key" + ['='] + key
  }

  function ReceivedLine(bytes: nat): string {
    "rx_bytes" + ['='] + Decimal(bytes)
  }

  // A reply about two peers that have received m and n bytes.
  function TwoPeers(one: string, m: nat, two: string, n: nat): seq<string> {
    [PeerLine(one), ReceivedLine(m), PeerLine(two), ReceivedLine(n)]
  }

  // The second peer's bytes are reported: for m = 1 and n = 2, not those of the first.
  lemma SecondPeerIsReported(one: string, m: nat, two: string, n: nat)
    requires m < 0x8000_0000_0000_0000 && n < 0x8000_0000_0000_0000
    ensures FirstPeer(TwoPeers(one, m, two, n)) == [PeerLine(one), ReceivedLine(m)]
    ensures StatusFrom(NO_STATUS, TwoPeers(one, m, two, n)).rxBytes == n
    ensures StatusFrom(NO_STATUS, FirstPeer(TwoPeers(one, m, two, n))).rxBytes == m
  {
    hide Given, StatusFrom, FirstPeer, PeerLine, ReceivedLine;
    var lines := TwoPeers(one, m, two, n);
    FirstOfTwo(PeerLine(one), ReceivedLine(m), PeerLine(two), ReceivedLine(n), one, m, two);
    ReceivedGives(m);
    ReceivedGives(n);
    LastValueWins(NO_STATUS, lines, Received, 3);
    LastValueWins(NO_STATUS, lines[..2], Received, 1);
    assert lines[..2] == [PeerLine(one), ReceivedLine(m)];
  }

  lemma ReceivedGives(bytes: nat)
    requires bytes < 0x8000_0000_0000_0000
    ensures Given(ReceivedLine(bytes), Received) == Some(bytes)
    ensures !StartsPeer(ReceivedLine(bytes))
  {
    hide Cut, ScanInt, Decimal;
    assert '=' !in Key(Received);
    CutAtFirst(Key(Received), '=', Decimal(bytes));
    ScanDecimal(bytes);
  }

  lemma PeerStarts(key: string)
    ensures StartsPeer(PeerLine(key))
  {
    hide Cut;
    CutAtFirst("public_key", '=', key);
  }

  lemma FirstOfTwo(a: string, b: string, c: string, d: string, one: string, m: nat, two: string)
    requires a == PeerLine(one) && b == ReceivedLine(m) && c == PeerLine(two)
    requires m < 0x8000_0000_0000_0000
    ensures FirstPeer([a, b, c, d]) == [a, b]
  {
    hide StartsPeer, PeerLine, ReceivedLine;
    PeerStarts(one);
    ReceivedGives(m);
    PeerStarts(two);
    assert UntilPeer([a, b, c, d]) == [];
    assert [a, b, c, d][1..] == [b, c, d] && [b, c, d][1..] == [c, d];
    assert UntilPeer([c, d]) == [];
    assert UntilPeer([b, c, d]) == [b] + UntilPeer([c, d]);
    assert [a, b] + [] == [a, b];
  }
}
