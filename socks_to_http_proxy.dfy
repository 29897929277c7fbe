/** The HTTP-to-SOCKS5 front end: one accepted HTTP client is read, its target is
    taken from the `Host:` header, a CONNECT is dialled through the local SOCKS5
    relay (RFC 1928), and then either the tunnel reply is written to the client or
    the original request is replayed upstream before the bytes are pumped.

    Sockets are not modelled as objects: what a peer sends back, and whether a call
    raises, is given as an oracle value, and what the proxy writes is returned. */
module SocksToHttpProxy {
  import opened Wrappers
  import opened Text

  type byte = b: int | 0 <= b < 256

  // ---------------------------------------------------------------------------
  // SOCKS5 frames

  /** Method-selection message of section 3 of RFC 1928: version 5, one method,
      method 0x00 ("no authentication required"). */
  const Greeting: seq<byte> := [5, 1, 0]

  /** The byte of an ASCII character. */
  function CharByte(c: char): byte
    requires c as int < 128
  {
    c as int
  }

  /** `s.encode()` for an ASCII string: one byte per character. */
  function AsciiBytes(s: string): (r: seq<byte>)
    requires IsAscii(s)
    ensures |r| == |s|
    ensures forall i :: 0 <= i < |s| ==> r[i] == s[i] as int
  {
    seq(|s|, i requires 0 <= i < |s| => assert s[i] in s; CharByte(s[i]))
  }

  /** The CONNECT request of section 4 of RFC 1928 with ATYP = DOMAINNAME (0x03,
      section 5): `05 01 00 03 <len> <host> <port hi> <port lo>`.
      `bytes([len(host)])` raises ValueError when the host is longer than 255
      characters and `port.to_bytes(2, 'big')` raises OverflowError outside
      0..65535; both are None here. */
  function ConnectRequest(host: string, port: int): (r: Option<seq<byte>>)
    requires IsAscii(host)
    ensures r.Some? <==> |host| <= 255 && 0 <= port <= 65535
    ensures r.Some? ==>
      && |r.value| == 7 + |host|
      && r.value[..5] == [5, 1, 0, 3, |host|]
      && r.value[5..5 + |host|] == AsciiBytes(host)
      && r.value[5 + |host|] as int * 256 + r.value[6 + |host|] as int == port
  {
    if |host| > 255 || port < 0 || port > 65535 then None
    else Some([5, 1, 0, 3, |host|] + AsciiBytes(host) + [port / 256, port % 256])
  }

  /** How the relay end reads a CONNECT request with a domain-name address
      (sections 4 and 5 of RFC 1928): the host name and the port, or None when the
      frame is not such a request. */
  function DecodeConnectRequest(frame: seq<byte>): Option<(string, int)>
  {
    if |frame| < 7 || frame[..4] != [5, 1, 0, 3] || |frame| != 7 + frame[4] as int then None
    else
      var n: int := frame[4];
      Some((seq(n, i requires 0 <= i < n => frame[5 + i] as char), frame[5 + n] as int * 256 + frame[6 + n] as int))
  }

  /** The relay reads back exactly the host and port the proxy put in the frame. */
  lemma ConnectRequestDecodes(host: string, port: int)
    requires IsAscii(host) && |host| <= 255 && 0 <= port <= 65535
    ensures DecodeConnectRequest(ConnectRequest(host, port).value) == Some((host, port))
  {
    var f := ConnectRequest(host, port).value;
    assert f[..4] == f[..5][..4] == [5, 1, 0, 3];
    assert f[4] == f[..5][4] == |host|;
    var h := seq(|host|, i requires 0 <= i < |host| => f[5 + i] as char);
    forall i | 0 <= i < |host| ensures h[i] == host[i] {
      assert f[5 + i] == f[5..5 + |host|][i];
    }
    assert h == host;
  }

  /** Conversely, every domain-name CONNECT frame with an ASCII host is the one
      the proxy builds for that host and port. */
  lemma DecodedRequestIsBuilt(frame: seq<byte>)
    requires DecodeConnectRequest(frame).Some?
    requires IsAscii(DecodeConnectRequest(frame).value.0)
    ensures ConnectRequest(DecodeConnectRequest(frame).value.0, DecodeConnectRequest(frame).value.1)
            == Some(frame)
  {
    var (host, port) := DecodeConnectRequest(frame).value;
    var n: int := frame[4];
    assert |host| == n;
    var hi: int, lo: int := frame[5 + n], frame[6 + n];
    assert port == hi * 256 + lo;
    assert port / 256 == hi && port % 256 == lo;
    var g := ConnectRequest(host, port).value;
    assert g == [5, 1, 0, 3, n] + AsciiBytes(host) + [hi, lo];
    forall i | 0 <= i < |frame| ensures g[i] == frame[i] {
      if i < 4 {
        assert frame[i] == frame[..4][i];
      } else if 5 <= i < 5 + n {
        assert g[i] == AsciiBytes(host)[i - 5];
      }
    }
    assert g == frame;
  }

  // ---------------------------------------------------------------------------
  // Dialling through the relay

  /** What the relay listener does during one dial: whether the TCP connect
      succeeds, and what each `recv` returns (None: the call raised). */
  datatype Relay = Relay(accepts: bool, greetingReply: Option<seq<byte>>, connectReply: Option<seq<byte>>)

  /** The relay socket at the end of a dial: returned open, closed after a
      non-zero REP octet, or abandoned unclosed by the exception path. */
  datatype RelayFate = Established | Rejected(code: byte) | Abandoned

  /** The bytes written to the relay and the fate of its socket. */
  datatype Dial = Dial(sent: seq<byte>, fate: RelayFate)

  /** `create_socks_connection`: greeting, one `recv(2)` whose content is never
      looked at, the CONNECT request, one `recv(10)`, and a test of its octet 1
      (REP, section 6 of RFC 1928). */
  function CreateSocksConnection(host: string, port: int, relay: Relay): (d: Dial)
    requires IsAscii(host)
    ensures d.fate == Established <==>
      && relay.accepts && relay.greetingReply.Some?
      && |host| <= 255 && 0 <= port <= 65535
      && relay.connectReply.Some? && |relay.connectReply.value| >= 2
      && relay.connectReply.value[1] == 0
    ensures d.fate.Rejected? <==>
      && relay.accepts && relay.greetingReply.Some? && ConnectRequest(host, port).Some?
      && relay.connectReply.Some? && |relay.connectReply.value| >= 2
      && relay.connectReply.value[1] != 0
    ensures d.fate.Rejected? ==> d.fate.code == relay.connectReply.value[1]
    ensures !relay.accepts ==> d.sent == []
    ensures relay.accepts && (relay.greetingReply.None? || ConnectRequest(host, port).None?) ==> d.sent == Greeting
    ensures relay.accepts && relay.greetingReply.Some? && ConnectRequest(host, port).Some? ==>
              d.sent == Greeting + ConnectRequest(host, port).value
  {
    if !relay.accepts then Dial([], Abandoned)
    else if relay.greetingReply.None? then Dial(Greeting, Abandoned)
    else match ConnectRequest(host, port)
      case None => Dial(Greeting, Abandoned)
      case Some(request) =>
        var sent := Greeting + request;
        match relay.connectReply
        case None => Dial(sent, Abandoned)
        case Some(reply) =>
          if |reply| < 2 then Dial(sent, Abandoned)              // IndexError on socks_response[1]
          else if reply[1] != 0 then Dial(sent, Rejected(reply[1]))
          else Dial(sent, Established)
  }

  /** The 2-byte greeting reply is read and discarded: any two replies give the
      same dial. */
  lemma GreetingReplyIgnored(host: string, port: int, relay: Relay, reply1: seq<byte>, reply2: seq<byte>)
    requires IsAscii(host)
    ensures CreateSocksConnection(host, port, relay.(greetingReply := Some(reply1)))
         == CreateSocksConnection(host, port, relay.(greetingReply := Some(reply2)))
  {
  }

  // ---------------------------------------------------------------------------
  // Reading the target from the request

  /** `request.decode('utf-8', errors='ignore')` for a request without valid
      multi-byte sequences: ASCII bytes become characters, other bytes are dropped. */
  function Decode(request: seq<byte>): (text: string)
    ensures IsAscii(text)
    ensures |text| <= |request|
  {
    if request == [] then []
    else
      var rest := Decode(request[..|request| - 1]);
      var b := request[|request| - 1];
      if b < 128 then rest + [b as char] else rest
  }

  /** ASCII text survives encoding and decoding unchanged. */
  lemma {:induction false} DecodeAscii(text: string)
    requires IsAscii(text)
    ensures Decode(AsciiBytes(text)) == text
    decreases |text|
  {
    if text != [] {
      var t := text[..|text| - 1];
      assert forall c :: c in t ==> c in text;
      assert AsciiBytes(text)[..|text| - 1] == AsciiBytes(t);
      DecodeAscii(t);
      assert text[|text| - 1] in text;
      assert t + [text[|text| - 1]] == text;
    }
  }

  datatype Target = Target(host: string, port: int)

  datatype TargetError = NoHostHeader | BadPort

  /** `line.lower().startswith('host:')`: the line begins with "host" in any
      case, then a colon, which is the first colon of the line. */
  predicate IsHostLine(line: string)
    ensures IsHostLine(line) ==> |line| >= 5 && line[4] == ':' && ':' !in line[..4]
    ensures IsHostLine(line) ==> forall i :: 0 <= i < 4 ==> LowerChar(line[i]) == "host"[i]
  {
    var r := StartsWith(Lower(line), "host:");
    if r then
      assert Lower(line)[..5][4] == ':';
      assert forall i :: 0 <= i < 4 ==> Lower(line)[..5][i] == LowerChar(line[i]);
      r
    else r
  }

  /** The first line of `lines` that is a `Host:` header. */
  function FirstHostLine(lines: seq<string>): (r: Option<nat>)
    ensures r.None? <==> forall k :: 0 <= k < |lines| ==> !IsHostLine(lines[k])
    ensures r.Some? ==> r.value < |lines| && IsHostLine(lines[r.value])
    ensures r.Some? ==> forall k :: 0 <= k < r.value ==> !IsHostLine(lines[k])
  {
    if lines == [] then None
    else if IsHostLine(lines[0]) then Some(0)
    else match FirstHostLine(lines[1..])
      case None => None
      case Some(k) => Some(k + 1)
  }

  /** A `Host:` header line has its first colon at index 4. */
  lemma HostLineColon(line: string)
    requires IsHostLine(line)
    ensures FirstIndex(line, ':') == Some(4)
  {
    assert ':' !in line[..4];
  }

  /** `line.split(':', 1)[1].strip()`: the text after the first ':' of a
      `Host:` line, without surrounding whitespace. */
  function HostValue(line: string): (value: string)
    requires IsHostLine(line)
    ensures value == Strip(line[FirstIndex(line, ':').value + 1..])
    ensures value == [] || (!IsSpace(value[0]) && !IsSpace(value[|value| - 1]))
    ensures forall c :: c in value ==> c in line
  {
    HostLineColon(line);
    var value := Strip(line[5..]);
    assert forall c :: c in line[5..] ==> c in line;
    value
  }

  /** `rsplit(':', 1)` of a value at its last colon `k`, then `int()` of the tail. */
  function SplitHostPort(value: string, k: nat): (r: Result<Target, TargetError>)
    requires k < |value| && value[k] == ':' && ':' !in value[k + 1..]
    ensures r.Success? ==> value == r.value.host + ":" + value[k + 1..]
    ensures r.Success? ==> Some(r.value.port) == ParseInt(value[k + 1..])
    ensures r.Failure? <==> ParseInt(value[k + 1..]).None?
  {
    match ParseInt(value[k + 1..])
    case None => Failure(BadPort)
    case Some(p) =>
      SplitAround(value, k);
      Success(Target(value[..k], p))
  }

  /** The target named by a `Host:` value: split at its last ':' when it has
      one, otherwise the default port. */
  function TargetOfValue(value: string, defaultPort: int): (r: Result<Target, TargetError>)
    ensures ':' !in value ==> r == Success(Target(value, defaultPort))
    ensures ':' in value ==> r == SplitHostPort(value, LastIndex(value, ':').value)
    ensures IsAscii(value) && r.Success? ==> IsAscii(r.value.host)
  {
    match LastIndex(value, ':')
    case None => Success(Target(value, defaultPort))
    case Some(i) =>
      assert forall c :: c in value[..i] ==> c in value;
      SplitHostPort(value, i)
  }

  /** A value with a colon names the host before its last colon and the port
      `int()` reads after it, whatever colons the host itself holds; a tail
      `int()` refuses is `BadPort`. */
  lemma TargetAtLastColon(host: string, tail: string, defaultPort: int)
    requires ':' !in tail
    ensures TargetOfValue(host + ":" + tail, defaultPort)
         == match ParseInt(tail)
            case Some(p) => Success(Target(host, p))
            case None => Failure(BadPort)
  {
    var value := host + ":" + tail;
    assert value[|host| + 1..] == tail;
    LastIndexAt(value, ':', |host|);
    assert value[..|host|] == host;
  }

  /** Lines of ASCII text are ASCII. */
  lemma SplitAscii(text: string, k: nat)
    requires IsAscii(text) && k < |Split(text, '\n')|
    ensures IsAscii(Split(text, '\n')[k])
  {
    forall c | c in Split(text, '\n')[k] ensures c as int < 128 {
      assert c in text;
    }
  }

  /** `443 if 'CONNECT' in request_str else 80` */
  function DefaultPort(text: string): (port: int)
    ensures port == 443 <==> Contains(text, "CONNECT")
    ensures port == 80 <==> !Contains(text, "CONNECT")
  {
    if Contains(text, "CONNECT") then 443 else 80
  }

  /** The target of `handle_client`: the first `Host:` line, the stripped text
      after its first ':', split at its last ':' when one remains (port parsed by
      `int`), otherwise port 443 when "CONNECT" occurs anywhere in the text, else 80. */
  function ExtractTarget(text: string): (r: Result<Target, TargetError>)
    ensures r == Failure(NoHostHeader) <==>
      forall k :: 0 <= k < |Split(text, '\n')| ==> !IsHostLine(Split(text, '\n')[k])
    ensures FirstHostLine(Split(text, '\n')).Some? ==>
      r == TargetOfValue(HostValue(Split(text, '\n')[FirstHostLine(Split(text, '\n')).value]), DefaultPort(text))
    ensures IsAscii(text) && r.Success? ==> IsAscii(r.value.host)
  {
    var lines := Split(text, '\n');
    match FirstHostLine(lines)
    case None => Failure(NoHostHeader)
    case Some(k) =>
      var value := HostValue(lines[k]);
      if IsAscii(text) then SplitAscii(text, k); TargetOfValue(value, DefaultPort(text))
      else TargetOfValue(value, DefaultPort(text))
  }


  // ---------------------------------------------------------------------------
  // The Host header decides the target

  /** `Host: <value>\r` is a header line whose stripped value is `value`. */
  lemma HostLine(value: string)
    requires value == [] || (!IsSpace(value[0]) && !IsSpace(value[|value| - 1]))
    ensures IsHostLine("Host: " + value + "\r")
    ensures HostValue("Host: " + value + "\r") == value
    ensures '\n' !in value ==> '\n' !in "Host: " + value + "\r"
  {
    var line := "Host: " + value + "\r";
    forall i | 0 <= i < |line| && '\n' !in value ensures line[i] != '\n' {
      if 6 <= i < 6 + |value| {
        assert line[i] == value[i - 6];
      }
    }
    assert line[..5] == "Host:";
    assert Lower(line)[..5] == "host:";
    assert line[5..] == [' '] + value + ['\r'];
    StripPadded([' '], value, ['\r']);
  }

  /** A request whose lines before `Host: <value>\r` are no `Host:` headers:
      the target is read from that value alone, with the default port chosen
      by the whole text. Whatever follows, later `Host:` lines included, plays
      no part. */
  lemma HostHeaderTarget(before: seq<string>, value: string, rest: string)
    requires forall k :: 0 <= k < |before| ==> '\n' !in before[k] && !IsHostLine(before[k])
    requires '\n' !in value && (value == [] || (!IsSpace(value[0]) && !IsSpace(value[|value| - 1])))
    ensures var text := Lines(before, '\n') + ("Host: " + value + "\r\n" + rest);
            ExtractTarget(text) == TargetOfValue(value, DefaultPort(text))
  {
    var line := "Host: " + value + "\r";
    var text := Lines(before, '\n') + ("Host: " + value + "\r\n" + rest);
    HostLine(value);
    HostLineThenRest(value, rest);
    LinesThenLine(before, line, rest);
    FirstHostAt(Split(text, '\n'), |before|);
    TargetOfFirstHostLine(text, |before|);
  }

  lemma HostLineThenRest(value: string, rest: string)
    ensures "Host: " + value + "\r\n" + rest == ("Host: " + value + "\r") + ['\n'] + rest
  {
  }

  /** With the first `Host:` line found, the target is read from its value. */
  lemma TargetOfFirstHostLine(text: string, j: nat)
    requires FirstHostLine(Split(text, '\n')) == Some(j)
    ensures ExtractTarget(text) == TargetOfValue(HostValue(Split(text, '\n')[j]), DefaultPort(text))
  {
  }

  /** Whole lines, one more line, then the rest of the text. */
  lemma LinesThenLine(before: seq<string>, line: string, rest: string)
    requires forall k :: 0 <= k < |before| ==> '\n' !in before[k]
    requires '\n' !in line
    ensures var lines := Split(Lines(before, '\n') + (line + ['\n'] + rest), '\n');
            && |lines| > |before| && lines[|before|] == line
            && forall k :: 0 <= k < |before| ==> lines[k] == before[k]
  {
    SplitLines(before, '\n', line + ['\n'] + rest);
    SplitAfterLine(line, '\n', rest);
  }

  /** A `Host:` line with none before it is the first one. */
  lemma FirstHostAt(lines: seq<string>, j: nat)
    requires j < |lines| && IsHostLine(lines[j])
    requires forall k :: 0 <= k < j ==> !IsHostLine(lines[k])
    ensures FirstHostLine(lines) == Some(j)
  {
  }

  /** A request line followed by a `Host:` line. */
  lemma HostSecond(first: string, value: string, rest: string)
    requires '\n' !in first && !IsHostLine(first)
    requires '\n' !in value && (value == [] || (!IsSpace(value[0]) && !IsSpace(value[|value| - 1])))
    ensures var text := first + "\nHost: " + value + "\r\n" + rest;
            ExtractTarget(text) == TargetOfValue(value, DefaultPort(text))
  {
    assert Lines([first], '\n') == first + "\n" by {
      assert [first][1..] == [];
    }
    assert first + "\nHost: " + value + "\r\n" + rest == Lines([first], '\n') + ("Host: " + value + "\r\n" + rest);
    HostHeaderTarget([first], value, rest);
  }

  /** The port of a `host:port` value is the decimal after the last colon;
      the host keeps any colons of its own (an IPv6 address, say). */
  lemma HostPortValue(host: string, port: nat, defaultPort: int)
    ensures TargetOfValue(host + ":" + Decimal(port), defaultPort) == Success(Target(host, port))
  {
    var d := Decimal(port);
    assert ':' !in d by {
      forall i | 0 <= i < |d| ensures d[i] != ':' {
        assert IsDigit(d[i]);
      }
    }
    TargetAtLastColon(host, d, defaultPort);
    DecimalRoundTrip(port);
  }

  /** A CONNECT request line is a single line and not a `Host:` header. */
  lemma ConnectLine(other: string)
    requires '\n' !in other
    ensures var first := "CONNECT " + other + " HTTP/1.1\r";
            '\n' !in first && !IsHostLine(first)
  {
    var first := "CONNECT " + other + " HTTP/1.1\r";
    forall i | 0 <= i < |first| ensures first[i] != '\n' {
      if 8 <= i < 8 + |other| {
        assert first[i] == other[i - 8];
      }
    }
    assert LowerChar(first[0]) == LowerChar('C') == 'c';
  }

  /** `host:port` is a single line with non-blank ends. */
  lemma HostPortShape(host: string, port: nat)
    requires '\n' !in host && host != [] && !IsSpace(host[0])
    ensures var value := host + ":" + Decimal(port);
            '\n' !in value && !IsSpace(value[0]) && !IsSpace(value[|value| - 1])
  {
    var value := host + ":" + Decimal(port);
    assert value[0] == host[0];
    assert IsDigit(value[|value| - 1]);
    forall i | 0 <= i < |value| ensures value[i] != '\n' {
      if i > |host| {
        assert IsDigit(Decimal(port)[i - |host| - 1]);
      }
    }
  }

  /** The tunnel target is taken from the `Host:` header, whatever target the
      request line names: `CONNECT other HTTP/1.1` followed by `Host: h:p`
      dials `h` on port `p`, colons inside `h` included. */
  lemma ConnectTargetFromHostHeader(other: string, host: string, port: nat, rest: string)
    requires '\n' !in other && '\n' !in host
    requires host != [] && !IsSpace(host[0])
    ensures ExtractTarget("CONNECT " + other + " HTTP/1.1\r\nHost: " + host + ":" + Decimal(port) + "\r\n" + rest)
            == Success(Target(host, port))
  {
    var first := "CONNECT " + other + " HTTP/1.1\r";
    var value := host + ":" + Decimal(port);
    assert "CONNECT " + other + " HTTP/1.1\r\nHost: " + host + ":" + Decimal(port) + "\r\n" + rest
        == first + "\nHost: " + value + "\r\n" + rest;
    ConnectLine(other);
    HostPortShape(host, port);
    HostSecond(first, value, rest);
    HostPortValue(host, port, 443);
  }

  /** Without a colon in the header value the port is 443 exactly when "CONNECT"
      occurs somewhere in the request text (even in a path or another header),
      and 80 otherwise. */
  lemma DefaultPortRule(first: string, host: string, rest: string)
    requires '\n' !in first && !IsHostLine(first)
    requires '\n' !in host && ':' !in host
    requires host != [] && !IsSpace(host[0]) && !IsSpace(host[|host| - 1])
    ensures var text := first + "\nHost: " + host + "\r\n" + rest;
            && ExtractTarget(text).Success?
            && ExtractTarget(text).value.host == host
            && (ExtractTarget(text).value.port == 443 <==> Contains(text, "CONNECT"))
            && (ExtractTarget(text).value.port == 80 <==> !Contains(text, "CONNECT"))
  {
    HostSecond(first, host, rest);
  }

  // ---------------------------------------------------------------------------
  // handle_client

  /** `b'HTTP/1.1 200 Connection Established\r\n\r\n'`, the 2xx answer to CONNECT
      of section 9.3.6 of RFC 9110. */
  const ConnectionEstablished: seq<byte> :=
    [72, 84, 84, 80, 47, 49, 46, 49, 32, 50, 48, 48, 32,
     67, 111, 110, 110, 101, 99, 116, 105, 111, 110, 32,
     69, 115, 116, 97, 98, 108, 105, 115, 104, 101, 100, 13, 10, 13, 10]

  /** Why the handler stopped working on a client before relaying, or that it
      reached the relay. */
  datatype HandlerEnd =
    | StopRequested    // stop flag set on entry
    | ReadFailed       // the first `recv(4096)` raised
    | EmptyRequest     // the first read returned no bytes
    | MissingHost      // no `Host:` line
    | InvalidPort      // `int()` of the port text raised
    | DialFailed       // `create_socks_connection` returned None
    | WriteFailed      // the first `sendall` raised
    | Relaying         // handed over to `forward_data`

  /** The SOCKS socket when the handler is done with it. */
  datatype RelaySocket = NoRelaySocket | RelayClosed | RelayLeaked | RelayHandedOver

  /** What one client connection produced: bytes written to the client and to the
      relay before forwarding starts, and the state of the relay socket. The
      client socket is closed on every path (the `finally` clause). */
  datatype Handled = Handled(end: HandlerEnd, toClient: seq<byte>, toRelay: seq<byte>, relay: RelaySocket)

  /** After the dial: on success the first write, which depends on whether
      "CONNECT" occurs in the request text. */
  function AfterDial(text: string, request: seq<byte>, d: Dial, writeOk: bool): (h: Handled)
    ensures h.end == DialFailed <==> d.fate != Established
    ensures h.end == WriteFailed <==> d.fate == Established && !writeOk
    ensures h.end == Relaying <==> d.fate == Established && writeOk
    ensures h.end != Relaying ==> h.toClient == [] && h.toRelay == d.sent
    ensures h.end == Relaying && Contains(text, "CONNECT") ==>
      h.toClient == ConnectionEstablished && h.toRelay == d.sent && h.relay == RelayHandedOver
    ensures h.end == Relaying && !Contains(text, "CONNECT") ==>
      h.toClient == [] && h.toRelay == d.sent + request && h.relay == RelayHandedOver
    ensures h.relay == RelayClosed <==> d.fate.Rejected?
    ensures h.relay == RelayLeaked <==> d.fate == Abandoned || (d.fate == Established && !writeOk)
  {
    match d.fate
    case Abandoned => Handled(DialFailed, [], d.sent, RelayLeaked)
    case Rejected(_) => Handled(DialFailed, [], d.sent, RelayClosed)
    case Established =>
      if !writeOk then Handled(WriteFailed, [], d.sent, RelayLeaked)
      else if Contains(text, "CONNECT") then Handled(Relaying, ConnectionEstablished, d.sent, RelayHandedOver)
      else Handled(Relaying, [], d.sent + request, RelayHandedOver)
  }

  /** `handle_client` once a non-empty request has been read. */
  function HandleRequest(request: seq<byte>, relay: Relay, writeOk: bool): (h: Handled)
    ensures h.end !in {StopRequested, ReadFailed, EmptyRequest}
    ensures h.end == MissingHost <==> ExtractTarget(Decode(request)) == Failure(NoHostHeader)
    ensures h.end == InvalidPort <==> ExtractTarget(Decode(request)) == Failure(BadPort)
    ensures h.end in {MissingHost, InvalidPort} ==> h.toClient == [] && h.toRelay == [] && h.relay == NoRelaySocket
    ensures ExtractTarget(Decode(request)).Success? ==>
      var t := ExtractTarget(Decode(request)).value;
      h == AfterDial(Decode(request), request, CreateSocksConnection(t.host, t.port, relay), writeOk)
  {
    var text := Decode(request);
    match ExtractTarget(text)
    case Failure(NoHostHeader) => Handled(MissingHost, [], [], NoRelaySocket)
    case Failure(BadPort) => Handled(InvalidPort, [], [], NoRelaySocket)
    case Success(t) => AfterDial(text, request, CreateSocksConnection(t.host, t.port, relay), writeOk)
  }

  /** `handle_client`, up to the start of forwarding. `firstRead` is what the first
      `recv(4096)` returns (None: it raised), `relay` how the SOCKS relay behaves,
      and `writeOk` whether the first `sendall` succeeds. */
  function HandleClient(stopSet: bool, firstRead: Option<seq<byte>>, relay: Relay, writeOk: bool): (h: Handled)
    ensures h.end == StopRequested <==> stopSet
    ensures h.end == ReadFailed <==> !stopSet && firstRead.None?
    ensures h.end == EmptyRequest <==> !stopSet && firstRead == Some([])
    ensures h.end in {StopRequested, ReadFailed, EmptyRequest} ==>
      h.toClient == [] && h.toRelay == [] && h.relay == NoRelaySocket
    ensures !stopSet && firstRead.Some? && firstRead.value != [] ==>
      h == HandleRequest(firstRead.value, relay, writeOk)
  {
    if stopSet then Handled(StopRequested, [], [], NoRelaySocket)
    else match firstRead
      case None => Handled(ReadFailed, [], [], NoRelaySocket)
      case Some(request) =>
        if request == [] then Handled(EmptyRequest, [], [], NoRelaySocket)
        else HandleRequest(request, relay, writeOk)
  }

  /** Nothing reaches the client unless the handler relays: every close path
      (stop flag, failed or empty read, no `Host:` line, bad port, failed dial,
      failed write) writes zero bytes to the client. */
  lemma SilentOnFailure(stopSet: bool, firstRead: Option<seq<byte>>, relay: Relay, writeOk: bool)
    ensures HandleClient(stopSet, firstRead, relay, writeOk).end != Relaying ==>
            HandleClient(stopSet, firstRead, relay, writeOk).toClient == []
  {
  }

  /** A tunnel request: the relay receives the greeting and the CONNECT frame for
      the `Host:` target and nothing else, and the client receives exactly the
      "200 Connection Established" line. */
  lemma TunnelBytes(request: seq<byte>, relay: Relay)
    requires ExtractTarget(Decode(request)).Success? && Contains(Decode(request), "CONNECT")
    requires var t := ExtractTarget(Decode(request)).value;
             CreateSocksConnection(t.host, t.port, relay).fate == Established
    ensures var t := ExtractTarget(Decode(request)).value;
            var h := HandleRequest(request, relay, true);
            && h.end == Relaying
            && h.toClient == ConnectionEstablished
            && h.toRelay == Greeting + ConnectRequest(t.host, t.port).value
  {
  }

  /** A plain request: the relay receives the greeting, the CONNECT frame and then
      the original request bytes unchanged; the client receives nothing yet. */
  lemma ForwardBytes(request: seq<byte>, relay: Relay)
    requires ExtractTarget(Decode(request)).Success? && !Contains(Decode(request), "CONNECT")
    requires var t := ExtractTarget(Decode(request)).value;
             CreateSocksConnection(t.host, t.port, relay).fate == Established
    ensures var t := ExtractTarget(Decode(request)).value;
            var h := HandleRequest(request, relay, true);
            && h.end == Relaying
            && h.toClient == []
            && h.toRelay == Greeting + ConnectRequest(t.host, t.port).value + request
  {
  }

  // ---- the request of the proxy test ----

  /** Text without the first character of `w` does not contain `w`. */
  lemma LacksFirstChar(s: string, w: string)
    requires w != [] && w[0] !in s
    ensures !Contains(s, w)
  {
    forall i | 0 <= i <= |s| - |w| ensures !OccursAt(s, w, i) {
      assert s[i..i + |w|][0] == s[i];
    }
  }

  /** The request line of the forward-mode request in
      tests/test_socks_to_http_proxy.py. */
  const SampleGetLine: string := "GET http://example.com/ HTTP/1.1\r"

  /** The whole request: its request line, a `Host: example.com` header and a
      blank line. */
  const SampleGetText: string := SampleGetLine + "\nHost: " + "example.com" + "\r\n" + "\r\n"

  /** The relay of that test: greeting reply `05 00`, CONNECT reply
      `05 00 00 01` with a zero address and port. */
  const SampleRelay: Relay := Relay(true, Some([5, 0]), Some([5, 0, 0, 1, 0, 0, 0, 0, 0, 0]))

  lemma SampleGetLineShape()
    ensures '\n' !in SampleGetLine && !IsHostLine(SampleGetLine)
  {
    assert Lower(SampleGetLine)[0] == 'g';
  }

  lemma SampleGetLacksC()
    ensures 'C' !in SampleGetText
  {
  }

  /** The sample request dials example.com on port 80: it has no port in its
      `Host:` header and no "CONNECT" anywhere. */
  lemma SampleGetTarget()
    ensures ExtractTarget(SampleGetText) == Success(Target("example.com", 80))
  {
    SampleGetLineShape();
    SampleGetLacksC();
    LacksFirstChar(SampleGetText, "CONNECT");
    DefaultPortRule(SampleGetLine, "example.com", "\r\n");
  }

  /** A request whose text is ASCII and names a target the relay accepts is
      relayed, with the first write chosen by "CONNECT" as `TunnelBytes` and
      `ForwardBytes` state. */
  lemma AsciiRequestRelayed(text: string, t: Target, relay: Relay)
    requires IsAscii(text) && text != [] && ExtractTarget(text) == Success(t)
    requires IsAscii(t.host) && CreateSocksConnection(t.host, t.port, relay).fate == Established
    ensures var h := HandleClient(false, Some(AsciiBytes(text)), relay, true);
            && h.end == Relaying
            && (Contains(text, "CONNECT") ==>
                  h.toClient == ConnectionEstablished && h.toRelay == Greeting + ConnectRequest(t.host, t.port).value)
            && (!Contains(text, "CONNECT") ==>
                  h.toClient == [] && h.toRelay == Greeting + ConnectRequest(t.host, t.port).value + AsciiBytes(text))
  {
    DecodeAscii(text);
    if Contains(text, "CONNECT") {
      TunnelBytes(AsciiBytes(text), relay);
    } else {
      ForwardBytes(AsciiBytes(text), relay);
    }
  }

  lemma AsciiAppend(a: string, b: string)
    requires IsAscii(a) && IsAscii(b)
    ensures IsAscii(a + b)
  {
    forall c | c in a + b ensures c as int < 128 {
      assert c in a || c in b;
    }
  }

  lemma SampleGetAscii()
    ensures IsAscii(SampleGetText)
  {
    AsciiAppend(SampleGetLine, "\nHost: ");
    AsciiAppend(SampleGetLine + "\nHost: ", "example.com");
    AsciiAppend(SampleGetLine + "\nHost: " + "example.com", "\r\n");
    AsciiAppend(SampleGetLine + "\nHost: " + "example.com" + "\r\n", "\r\n");
  }

  lemma SampleRelayAccepts(host: string, port: int)
    requires IsAscii(host) && |host| <= 255 && 0 <= port <= 65535
    ensures CreateSocksConnection(host, port, SampleRelay).fate == Established
  {
  }

  /** Against the test's relay, the sample request is relayed: the client gets
      nothing from the proxy itself, and the relay gets the greeting, the CONNECT
      frame for example.com:80 and then the request bytes unchanged. */
  lemma SampleGetForwarded()
    ensures IsAscii(SampleGetText)
    ensures var request := AsciiBytes(SampleGetText);
            var h := HandleClient(false, Some(request), SampleRelay, true);
            && h.end == Relaying
            && h.toClient == []
            && h.toRelay == Greeting + ConnectRequest("example.com", 80).value + request
  {
    SampleGetAscii();
    SampleGetTarget();
    SampleGetLacksC();
    LacksFirstChar(SampleGetText, "CONNECT");
    SampleRelayAccepts("example.com", 80);
    AsciiRequestRelayed(SampleGetText, Target("example.com", 80), SampleRelay);
  }

  /** The tunnel request `CONNECT example.com:443 HTTP/1.1` with
      `Host: example.com:443`. */
  const SampleConnectText: string :=
    "CONNECT " + "example.com:443" + " HTTP/1.1\r\nHost: " + "example.com" + ":" + "443" + "\r\n" + "\r\n"

  lemma SampleConnectAscii()
    ensures IsAscii(SampleConnectText)
  {
    var a := "CONNECT " + "example.com:443" + " HTTP/1.1\r\nHost: ";
    AsciiAppend(a, "example.com");
    AsciiAppend(a + "example.com", ":");
    AsciiAppend(a + "example.com" + ":", "443");
    AsciiAppend(a + "example.com" + ":" + "443", "\r\n");
    AsciiAppend(a + "example.com" + ":" + "443" + "\r\n", "\r\n");
  }

  lemma SampleConnectTarget()
    ensures ExtractTarget(SampleConnectText) == Success(Target("example.com", 443))
  {
    assert Decimal(443) == "443";
    ConnectTargetFromHostHeader("example.com:443", "example.com", 443, "\r\n");
  }

  lemma SampleConnectHasConnect()
    ensures Contains(SampleConnectText, "CONNECT")
  {
    assert SampleConnectText[0..7] == "CONNECT";
    assert OccursAt(SampleConnectText, "CONNECT", 0);
  }

  /** The tunnel request dials example.com:443 and answers the client with
      exactly the "200 Connection Established" line; the relay gets only the
      greeting and the CONNECT frame. */
  lemma SampleConnectTunnelled()
    ensures IsAscii(SampleConnectText)
    ensures ExtractTarget(SampleConnectText) == Success(Target("example.com", 443))
    ensures var request := AsciiBytes(SampleConnectText);
            var h := HandleClient(false, Some(request), SampleRelay, true);
            && h.end == Relaying
            && h.toClient == ConnectionEstablished
            && h.toRelay == Greeting + ConnectRequest("example.com", 443).value
  {
    SampleConnectAscii();
    SampleConnectTarget();
    SampleConnectHasConnect();
    SampleRelayAccepts("example.com", 443);
    AsciiRequestRelayed(SampleConnectText, Target("example.com", 443), SampleRelay);
  }

  // ---------------------------------------------------------------------------
  // forward_data.forward: one direction of the copy

  /** One pass of the copy loop as the environment decides it: the stop flag at
      the loop test, what `recv(4096)` returns (None: it raised `socket.error`),
      and whether the following `sendall` succeeds. */
  datatype Turn = Turn(stopSet: bool, received: Option<seq<byte>>, sendOk: bool)

  /** Why the copy loop ended; `StillRunning` when the given turns ran out first. */
  datatype ForwardEnd = StopFlag | EndOfStream | SocketError | StillRunning

  /** A turn in which a chunk is read and written on. */
  predicate Copies(t: Turn)
  {
    !t.stopSet && t.received.Some? && t.received.value != [] && t.sendOk
  }

  /** How a turn that does not copy ends the loop. */
  function EndOf(t: Turn): (e: ForwardEnd)
    requires !Copies(t)
    ensures e != StillRunning
    ensures e == StopFlag <==> t.stopSet
    ensures e == EndOfStream <==> !t.stopSet && t.received == Some([])
  {
    if t.stopSet then StopFlag
    else if t.received == Some([]) then EndOfStream
    else SocketError
  }

  /** The chunks read in the given turns, concatenated in order. */
  function Chunks(turns: seq<Turn>): (r: seq<byte>)
    ensures r == [] <==> forall i :: 0 <= i < |turns| ==> turns[i].received.None? || turns[i].received.value == []
  {
    if turns == [] then []
    else Chunks(turns[..|turns| - 1]) + (var t := turns[|turns| - 1]; if t.received.Some? then t.received.value else [])
  }

  /** Chunks read over two stretches of turns are the chunks of the first
      followed by those of the second. */
  lemma {:induction false} ChunksAppend(a: seq<Turn>, b: seq<Turn>)
    ensures Chunks(a + b) == Chunks(a) + Chunks(b)
    decreases |b|
  {
    if b == [] {
      assert a + b == a;
    } else {
      var b' := b[..|b| - 1];
      var t := b[|b| - 1];
      var last := if t.received.Some? then t.received.value else [];
      assert (a + b)[..|a + b| - 1] == a + b' && (a + b)[|a + b| - 1] == t;
      assert Chunks(a + b) == Chunks(a + b') + last;
      assert Chunks(b) == Chunks(b') + last;
      ChunksAppend(a, b');
    }
  }

  /** Copying is monotone: what reached the destination after `i` turns is a
      prefix of what reached it after `j >= i` turns. */
  lemma ChunksPrefix(turns: seq<Turn>, i: nat, j: nat)
    requires i <= j <= |turns|
    ensures Chunks(turns[..i]) <= Chunks(turns[..j])
  {
    assert turns[..j] == turns[..i] + turns[i..j];
    ChunksAppend(turns[..i], turns[i..j]);
  }

  /** `forward(source, destination)`: while the stop flag is clear, read a chunk;
      stop on an empty chunk; write the chunk on; a `socket.error` ends the loop;
      both sockets are closed on the way out. Returns the bytes written to the
      destination, the number of turns that copied, why the loop ended, and
      whether the sockets were closed. */
  method Forward(turns: seq<Turn>) returns (delivered: seq<byte>, copied: nat, end: ForwardEnd, closed: bool)
    ensures copied <= |turns|
    ensures forall i :: 0 <= i < copied ==> Copies(turns[i])
    ensures delivered == Chunks(turns[..copied])
    ensures copied < |turns| ==> !Copies(turns[copied]) && end == EndOf(turns[copied])
    ensures copied == |turns| <==> end == StillRunning
    ensures closed <==> end != StillRunning
  {
    delivered, copied, end := [], 0, StillRunning;
    while copied < |turns| && end == StillRunning
      invariant copied <= |turns|
      invariant forall i :: 0 <= i < copied ==> Copies(turns[i])
      invariant delivered == Chunks(turns[..copied])
      invariant end != StillRunning ==> copied < |turns| && !Copies(turns[copied]) && end == EndOf(turns[copied])
      decreases |turns| - copied, if end == StillRunning then 1 else 0
    {
      var t := turns[copied];
      if t.stopSet {
        end := StopFlag;
      } else if t.received.None? {
        end := SocketError;
      } else if t.received.value == [] {
        end := EndOfStream;
      } else if !t.sendOk {
        end := SocketError;
      } else {
        assert turns[..copied + 1][..copied] == turns[..copied];
        delivered := delivered + t.received.value;
        copied := copied + 1;
      }
    }
    closed := end != StillRunning;
  }

  /** Every turn that copies delivers a non-empty chunk, so `k` copying turns
      deliver at least `k` bytes. */
  lemma DeliveredBeforeStop(turns: seq<Turn>, k: nat)
    requires k <= |turns|
    requires forall i :: 0 <= i < k ==> Copies(turns[i])
    ensures |Chunks(turns[..k])| >= k
  {
    if k > 0 {
      DeliveredBeforeStop(turns, k - 1);
      assert turns[..k][..k - 1] == turns[..k - 1];
    }
  }

  // ---------------------------------------------------------------------------
  // bind_to_port

  /** What `bind` does on one attempt: binds, or raises OSError with an errno. */
  datatype BindAttempt = Bound | Failed(errno: int)

  /** `bind_to_port`'s outcome: a (host, port) pair, the re-raised OSError, or
      the RuntimeError after the last attempt. */
  datatype BindResult = BoundTo(host: string, port: int) | Reraised(errno: int) | Exhausted

  /** errno 98, EADDRINUSE on Linux. */
  const AddressInUse := 98

  /** `bind_to_port(server_socket, host, port, max_attempts)`. `outcome(i)` is what
      the bind of attempt `i` does. Returns the result, the ports tried in order,
      and whether the caller's socket was closed (the first EADDRINUSE closes it
      and later attempts bind fresh sockets that are never handed back). */
  method BindToPort(host: string, port: int, maxAttempts: int, outcome: nat -> BindAttempt)
    returns (r: BindResult, tried: seq<int>, callerSocketClosed: bool)
    ensures |tried| <= (if maxAttempts < 0 then 0 else maxAttempts)
    ensures forall i :: 0 <= i < |tried| ==> tried[i] == port + i
    ensures forall i :: 0 <= i < |tried| - 1 ==> outcome(i) == Failed(AddressInUse)
    ensures r.BoundTo? <==> tried != [] && outcome(|tried| - 1) == Bound
    ensures r.BoundTo? ==> r == BoundTo(host, port + |tried| - 1)
    ensures r.Reraised? <==> tried != [] && outcome(|tried| - 1).Failed? && outcome(|tried| - 1).errno != AddressInUse
    ensures r.Reraised? ==> r.errno == outcome(|tried| - 1).errno
    ensures r.Exhausted? ==>
      && |tried| == (if maxAttempts < 0 then 0 else maxAttempts)
      && (forall i :: 0 <= i < |tried| ==> outcome(i) == Failed(AddressInUse))
    ensures callerSocketClosed <==> tried != [] && outcome(0) == Failed(AddressInUse)
  {
    var current := port;
    var attempt := 0;
    tried, callerSocketClosed := [], false;
    while attempt < maxAttempts
      invariant 0 <= attempt <= (if maxAttempts < 0 then 0 else maxAttempts)
      invariant |tried| == attempt && current == port + attempt
      invariant forall i :: 0 <= i < attempt ==> tried[i] == port + i && outcome(i) == Failed(AddressInUse)
      invariant callerSocketClosed <==> attempt > 0
    {
      tried := tried + [current];
      match outcome(attempt)
      case Bound =>
        return BoundTo(host, current), tried, callerSocketClosed;
      case Failed(errno) =>
        if errno == AddressInUse {
          current := port + attempt + 1;
          callerSocketClosed := true;
        } else {
          return Reraised(errno), tried, callerSocketClosed;
        }
      attempt := attempt + 1;
    }
    r := Exhausted;
  }

  // ---------------------------------------------------------------------------
  // The server object

  /** One `accept()` as the environment decides it: a client arrives (and `stop()`
      may have run on another thread while `accept` was blocked), or `accept`
      raises. */
  datatype AcceptEvent = Accepted(client: nat, stopMeanwhile: bool) | AcceptFailed

  /** The clients `start` hands to a handler for a run of accept events, and
      whether the loop ended (by the stop flag or an exception) before the events
      ran out. */
  /** The clients handed over, one per accept event at most; the loop ends
      early exactly when some event is left over. */
  function AcceptLoop(events: seq<AcceptEvent>): (r: (seq<nat>, bool))
    ensures |r.0| <= |events|
    ensures r.1 <==> |r.0| < |events|
  {
    if events == [] then ([], false)
    else match events[0]
      case AcceptFailed => ([], true)
      case Accepted(client, stopMeanwhile) =>
        if stopMeanwhile then ([], true)
        else var rest := AcceptLoop(events[1..]); ([client] + rest.0, rest.1)
  }

  /** The clients handed over are those of the leading accept events that
      found the stop flag clear, in order. */
  lemma {:induction false} AcceptedInOrder(events: seq<AcceptEvent>)
    ensures forall i :: 0 <= i < |AcceptLoop(events).0| ==> events[i] == Accepted(AcceptLoop(events).0[i], false)
  {
    if events != [] && events[0].Accepted? && !events[0].stopMeanwhile {
      AcceptedInOrder(events[1..]);
    }
  }

  /** A client accepted after the stop flag was set is never handed to a handler,
      and neither is any later one. */
  lemma {:induction false} NoDispatchAfterStop(events: seq<AcceptEvent>, k: nat)
    requires k < |events| && (events[k] == AcceptFailed || (events[k].Accepted? && events[k].stopMeanwhile))
    ensures |AcceptLoop(events).0| <= k
    ensures AcceptLoop(events).1
  {
    if k > 0 && events[0].Accepted? && !events[0].stopMeanwhile {
      NoDispatchAfterStop(events[1..], k - 1);
    }
  }

  /** `SOCKStoHTTPProxy`: the listening socket, the stop flag, and the clients
      handed to handler threads. `exited` records `sys.exit(1)` in the constructor. */
  class HttpProxyServer {
    var httpHost: string
    var httpPort: int
    var stopRequested: bool
    var serverSocketOpen: bool
    var listening: bool
    var exited: bool
    var dispatched: seq<nat>

    /** Creates the socket, binds it through `bind_to_port` and listens; any
        failure stops the server and exits. Because every fallback attempt closes
        the caller's socket, `listen` succeeds only when the first port binds. */
    constructor (host: string, port: int, maxBindAttempts: int, outcome: nat -> BindAttempt)
      ensures listening <==> maxBindAttempts >= 1 && outcome(0) == Bound
      ensures listening ==> httpHost == host && httpPort == port && !stopRequested && serverSocketOpen && !exited
      ensures !listening ==> stopRequested && !serverSocketOpen && exited
      ensures dispatched == []
    {
      httpHost, httpPort := host, port;
      stopRequested, serverSocketOpen, listening, exited := false, true, false, false;
      dispatched := [];
      var r, tried, callerSocketClosed := BindToPort(host, port, maxBindAttempts, outcome);
      if r.BoundTo? {
        httpHost, httpPort := r.host, r.port;
      }
      if r.BoundTo? && !callerSocketClosed {
        listening := true;
      } else {
        // the exception handler: stop() then sys.exit(1)
        stopRequested, serverSocketOpen := true, false;
        exited := true;
      }
    }

    /** `stop()`: sets the stop flag and closes the server socket. Calling it
        again changes nothing. */
    method Stop()
      modifies this
      ensures stopRequested && !serverSocketOpen
      ensures httpHost == old(httpHost) && httpPort == old(httpPort) && listening == old(listening)
      ensures exited == old(exited) && dispatched == old(dispatched)
    {
      stopRequested := true;
      serverSocketOpen := false;
    }

    /** `start()`: accepts clients while the stop flag is clear, re-checks the flag
        after each accept, and hands every other client to a handler; an exception
        or the flag ends the loop and `stop()` runs. An `accept` on a socket that is
        closed or not listening raises at once. */
    method Start(events: seq<AcceptEvent>)
      modifies this
      ensures var run := StartRun(old(stopRequested), old(listening && serverSocketOpen), events);
        && dispatched == old(dispatched) + run.0
        && (stopRequested <==> run.1)
        && (serverSocketOpen <==> old(serverSocketOpen) && !run.1)
      ensures httpHost == old(httpHost) && httpPort == old(httpPort) && listening == old(listening) && exited == old(exited)
    {
      if stopRequested || !(listening && serverSocketOpen) {
        Stop();
        return;
      }
      var i := 0;
      var ended := false;
      ghost var admitted: seq<nat> := [];
      assert events[i..] == events;
      while i < |events| && !ended
        invariant 0 <= i <= |events|
        invariant httpHost == old(httpHost) && httpPort == old(httpPort)
        invariant listening == old(listening) && exited == old(exited)
        invariant !stopRequested && serverSocketOpen
        invariant dispatched == old(dispatched) + admitted
        invariant !ended ==> AcceptLoop(events).0 == admitted + AcceptLoop(events[i..]).0
        invariant !ended ==> AcceptLoop(events).1 == AcceptLoop(events[i..]).1
        invariant ended ==> AcceptLoop(events).0 == admitted && AcceptLoop(events).1
        decreases |events| - i, if ended then 0 else 1
      {
        match events[i]
        case AcceptFailed =>
          ended := true;
        case Accepted(client, stopMeanwhile) =>
          if stopMeanwhile {
            // stop() ran on another thread while accept() was blocked
            ended := true;
          } else {
            assert events[i..][1..] == events[i + 1..];
            assert AcceptLoop(events[i..]).0 == [client] + AcceptLoop(events[i + 1..]).0;
            assert admitted + AcceptLoop(events[i..]).0 == (admitted + [client]) + AcceptLoop(events[i + 1..]).0;
            assert old(dispatched) + admitted + [client] == old(dispatched) + (admitted + [client]);
            dispatched := dispatched + [client];
            admitted := admitted + [client];
            i := i + 1;
          }
      }
      if !ended {
        assert events[i..] == [];
      }
      assert AcceptLoop(events).0 == admitted && (AcceptLoop(events).1 <==> ended);
      assert StartRun(old(stopRequested), old(listening && serverSocketOpen), events) == AcceptLoop(events);
      if ended {
        Stop();
      }
    }
  }

  /** What a run of `start` hands to handlers and whether it ends with `stop()`:
      nothing when the flag is already set or the socket cannot accept. */
  function StartRun(stopSet: bool, canAccept: bool, events: seq<AcceptEvent>): (r: (seq<nat>, bool))
    ensures stopSet || !canAccept ==> r == ([], true)
    ensures !stopSet && canAccept ==> r == AcceptLoop(events)
  {
    if stopSet || !canAccept then ([], true) else AcceptLoop(events)
  }
}
