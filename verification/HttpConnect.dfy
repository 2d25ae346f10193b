/** The HTTP CONNECT request of both C engines, assembled in fixed-size buffers. */
module HttpConnect {
  import opened Net
  import opened Base64
  import Decimal

  const HTTP_BUFFER_SIZE: nat := 1024
  const SOCKS5_BUFFER_SIZE: nat := 1024
  const AUTH_RAW_SIZE: nat := 512
  const AUTH_B64_SIZE: nat := 700
  const MAX_CREDENTIAL: nat := 255  // the globals hold 256 bytes with the terminator

  /** What snprintf leaves in a buffer of `size` bytes, terminator aside. */
  function Printed<T>(s: seq<T>, size: nat): seq<T>
    requires size > 0
  {
    if |s| < size then s else s[..size - 1]
  }

  function Credentials(user: seq<bv8>, pass: seq<bv8>): seq<bv8> { user + [0x3A] + pass }

  function IpText(ip: uint32): string {
    Decimal.Print(Octet(ip, 0)) + "." + Decimal.Print(Octet(ip, 1)) + "." + Decimal.Print(Octet(ip, 2)) + "."
        + Decimal.Print(Octet(ip, 3))
  }

  function HostPort(ip: uint32, port: uint16): string { IpText(ip) + ":" + Decimal.Print(port) }

  const CONNECT := "CONNECT "
  const VERSION := " HTTP/1.1\r\n"
  const HOST := "Host: "
  const EOL := "\r\n"
  const KEEP_ALIVE := "Proxy-Connection: Keep-Alive\r\n"
  const KEEP_ALIVE_LC := "Proxy-Connection: keep-alive\r\n"
  const BASIC := "Proxy-Authorization: Basic "

  function RequestLines(ip: uint32, port: uint16): string {
    CONNECT + HostPort(ip, port) + VERSION + HOST + HostPort(ip, port) + EOL
  }

  function AuthLine(user: seq<bv8>, pass: seq<bv8>): string {
    if user == [] then "" else BASIC + Encode(Credentials(user, pass)) + EOL
  }

  lemma HostPortLength(ip: uint32, port: uint16)
    ensures |HostPort(ip, port)| <= 21
  {
    Decimal.PrintLength(Octet(ip, 0), 3);
    Decimal.PrintLength(Octet(ip, 1), 3);
    Decimal.PrintLength(Octet(ip, 2), 3);
    Decimal.PrintLength(Octet(ip, 3), 3);
    Decimal.PrintLength(port, 5);
  }

  /** Credentials of at most 255 bytes each fill 511 of the 512 raw bytes and encode to at most 684 of
      the 700 characters; the whole request then stays below 816 of the 1024 bytes. */
  lemma RequestFits(ip: uint32, port: uint16, user: seq<bv8>, pass: seq<bv8>)
    requires |user| <= MAX_CREDENTIAL && |pass| <= MAX_CREDENTIAL
    ensures |Credentials(user, pass)| < AUTH_RAW_SIZE
    ensures |Encode(Credentials(user, pass))| == EncodedLength(|Credentials(user, pass)|) <= 684 < AUTH_B64_SIZE
    ensures |RequestLines(ip, port)| + |KEEP_ALIVE| + |AuthLine(user, pass)| + |EOL| < 816 < HTTP_BUFFER_SIZE
  {
    HostPortLength(ip, port);
    EncodeLength(Credentials(user, pass), 0);
  }

  // ---------- what the request says ----------

  /** The parts before and behind the first `c`. */
  function Cut<T(==)>(s: seq<T>, c: T): (seq<T>, seq<T>) {
    if s == [] then ([], [])
    else if s[0] == c then ([], s[1..])
    else
      var (before, behind) := Cut(s[1..], c);
      ([s[0]] + before, behind)
  }

  lemma {:induction false} CutAt<T>(a: seq<T>, c: T, b: seq<T>)
    requires c !in a
    ensures Cut(a + [c] + b, c) == (a, b)
  {
    var s := a + [c] + b;
    if a == [] {
      assert s[1..] == b;
    } else {
      assert s[1..] == a[1..] + [c] + b && s[0] == a[0] && a[0] in a;
      CutAt(a[1..], c, b);
      assert [a[0]] + a[1..] == a;
    }
  }

  lemma {:induction false} CutStops<T>(s: seq<T>, c: T)
    ensures c !in Cut(s, c).0
  {
    if s != [] && s[0] != c {
      CutStops(s[1..], c);
    }
  }

  predicate InAddress(c: char) { Decimal.IsDigit(c) || c == '.' || c == ':' }

  lemma HostPortChars(ip: uint32, port: uint16)
    ensures forall i :: 0 <= i < |HostPort(ip, port)| ==> InAddress(HostPort(ip, port)[i])
  {
  }

  /** The four parts of a dotted text. */
  function Parts(host: string): (string, string, string, string) {
    var (a, r1) := Cut(host, '.');
    var (b, r2) := Cut(r1, '.');
    var (c, d) := Cut(r2, '.');
    (a, b, c, d)
  }

  /** The octets of a dotted text, read as numbers. */
  function OctetsIn(host: string): (int, int, int, int) {
    var (a, b, c, d) := Parts(host);
    (Decimal.Atoi(a), Decimal.Atoi(b), Decimal.Atoi(c), Decimal.Atoi(d))
  }

  lemma DigitsHold(n: nat, c: char)
    requires !Decimal.IsDigit(c)
    ensures c !in Decimal.Print(n)
  {
  }

  lemma PartsOf(a: string, b: string, c: string, d: string)
    requires '.' !in a && '.' !in b && '.' !in c
    ensures Parts(a + ['.'] + (b + ['.'] + (c + ['.'] + d))) == (a, b, c, d)
  {
    CutAt(a, '.', b + ['.'] + (c + ['.'] + d));
    CutAt(b, '.', c + ['.'] + d);
    CutAt(c, '.', d);
  }

  lemma Dotted(a: string, b: string, c: string, d: string)
    ensures a + "." + b + "." + c + "." + d == a + ['.'] + (b + ['.'] + (c + ['.'] + d))
  {
    assert a + "." + b + "." + c + "." + d == a + ['.'] + (b + "." + c + "." + d);
    assert b + "." + c + "." + d == b + ['.'] + (c + ['.'] + d);
  }

  lemma PartsOfOctets(a: byte, b: byte, c: byte, d: byte)
    ensures Parts(Decimal.Print(a) + "." + Decimal.Print(b) + "." + Decimal.Print(c) + "." + Decimal.Print(d))
            == (Decimal.Print(a), Decimal.Print(b), Decimal.Print(c), Decimal.Print(d))
  {
    DigitsHold(a, '.');
    DigitsHold(b, '.');
    DigitsHold(c, '.');
    Dotted(Decimal.Print(a), Decimal.Print(b), Decimal.Print(c), Decimal.Print(d));
    PartsOf(Decimal.Print(a), Decimal.Print(b), Decimal.Print(c), Decimal.Print(d));
  }

  lemma IpTextParses(ip: uint32)
    ensures OctetsIn(IpText(ip)) == (Octet(ip, 0) as int, Octet(ip, 1) as int, Octet(ip, 2) as int, Octet(ip, 3) as int)
  {
    var a, b, c, d := Octet(ip, 0), Octet(ip, 1), Octet(ip, 2), Octet(ip, 3);
    PartsOfOctets(a, b, c, d);
    Decimal.AtoiOfPrint(a);
    Decimal.AtoiOfPrint(b);
    Decimal.AtoiOfPrint(c);
    Decimal.AtoiOfPrint(d);
  }

  lemma IpTextHasNoColon(ip: uint32)
    ensures ':' !in IpText(ip)
  {
    DigitsHold(Octet(ip, 0), ':');
    DigitsHold(Octet(ip, 1), ':');
    DigitsHold(Octet(ip, 2), ':');
    DigitsHold(Octet(ip, 3), ':');
  }

  /** The first two words of a request. */
  lemma WordsOf(target: string, behind: string)
    requires ' ' !in target
    ensures var (verb, rest) := Cut("CONNECT " + target + " " + behind, ' ');
            verb == "CONNECT" && Cut(rest, ' ').0 == target
  {
    var rest := target + [' '] + behind;
    assert "CONNECT " + target + " " + behind == "CONNECT" + [' '] + rest;
    CutAt("CONNECT", ' ', rest);
    CutAt(target, ' ', behind);
  }

  lemma RequestIs(ip: uint32, port: uint16, tail: string)
    ensures var target, host := HostPort(ip, port), "Host: " + HostPort(ip, port) + "\r\n" + tail;
            && RequestLines(ip, port) + tail == "CONNECT " + target + " " + ("HTTP/1.1\r\n" + host)
            && RequestLines(ip, port) + tail == "CONNECT " + target + " HTTP/1.1\r" + ['\n'] + host
  {
    var target, host := HostPort(ip, port), "Host: " + HostPort(ip, port) + "\r\n" + tail;
    assert VERSION == " " + "HTTP/1.1\r\n" && VERSION == " HTTP/1.1\r" + ['\n'];
    assert RequestLines(ip, port) + tail == "CONNECT " + target + VERSION + host;
  }

  /** The request line asks to CONNECT to the destination: its second word is address and port. */
  lemma RequestNamesDestination(ip: uint32, port: uint16, tail: string)
    ensures var (verb, rest) := Cut(RequestLines(ip, port) + tail, ' ');
            var (host, portText) := Cut(Cut(rest, ' ').0, ':');
            && verb == "CONNECT" && Decimal.Atoi(portText) == port
            && OctetsIn(host) == (Octet(ip, 0) as int, Octet(ip, 1) as int, Octet(ip, 2) as int, Octet(ip, 3) as int)
  {
    var target := HostPort(ip, port);
    RequestIs(ip, port, tail);
    HostPortChars(ip, port);
    WordsOf(target, "HTTP/1.1\r\n" + ("Host: " + target + "\r\n" + tail));
    IpTextHasNoColon(ip);
    assert target == IpText(ip) + [':'] + Decimal.Print(port);
    CutAt(IpText(ip), ':', Decimal.Print(port));
    IpTextParses(ip);
    Decimal.AtoiOfPrint(port);
  }

  /** The Host line repeats the target of the request line. */
  lemma HostLineRepeatsTarget(ip: uint32, port: uint16, tail: string)
    ensures var request := RequestLines(ip, port) + tail;
            var target := Cut(Cut(request, ' ').1, ' ').0;
            Cut(request, '\n').1 == "Host: " + target + "\r\n" + tail
  {
    var target := HostPort(ip, port);
    var host := "Host: " + target + "\r\n" + tail;
    RequestIs(ip, port, tail);
    HostPortChars(ip, port);
    WordsOf(target, "HTTP/1.1\r\n" + host);
    var line := "CONNECT " + target + " HTTP/1.1\r";
    assert '\n' !in "CONNECT " && '\n' !in target && '\n' !in " HTTP/1.1\r";
    CutAt(line, '\n', host);
  }

  /** The authorization line carries the credentials: what it encodes, cut at its first colon, is user and
      password exactly when the user name holds no colon. */
  lemma CredentialsComeBackIff(user: seq<bv8>, pass: seq<bv8>)
    requires user != []
    ensures var line := AuthLine(user, pass);
            && |line| >= 29 && line[..27] == "Proxy-Authorization: Basic " && line[|line| - 2..] == "\r\n"
            && (Cut(Decode(line[27..|line| - 2]), 0x3A) == (user, pass) <==> 0x3A !in user)
  {
    var line := AuthLine(user, pass);
    var text := Encode(Credentials(user, pass));
    assert line == BASIC + text + EOL && |BASIC| == 27;
    assert line[27..|line| - 2] == text;
    DecodeRecovers(Credentials(user, pass));
    if 0x3A !in user {
      CutAt(user, 0x3A, pass);
    } else {
      CutStops(Credentials(user, pass), 0x3A);
    }
  }

  /** Linux: three formatted appends to one buffer. */
  method LinuxConnect(ip: uint32, port: uint16, user: seq<bv8>, pass: seq<bv8>) returns (request: string)
    requires |user| <= MAX_CREDENTIAL && |pass| <= MAX_CREDENTIAL
    ensures request == RequestLines(ip, port) + KEEP_ALIVE + AuthLine(user, pass) + EOL && |request| < HTTP_BUFFER_SIZE
  {
    RequestFits(ip, port, user, pass);
    request := Printed(RequestLines(ip, port) + KEEP_ALIVE, HTTP_BUFFER_SIZE);
    if user != [] {
      var raw := Printed(Credentials(user, pass), AUTH_RAW_SIZE);
      var buf := new char[AUTH_B64_SIZE];
      var j := EncodeByWords(raw, buf);
      request := request + Printed(BASIC + buf[..j] + EOL, HTTP_BUFFER_SIZE - |request|);
    }
    request := request + Printed(EOL, HTTP_BUFFER_SIZE - |request|);
  }

  /** Windows: one formatted print, with the authorization line before the connection line. */
  method WindowsConnect(ip: uint32, port: uint16, user: seq<bv8>, pass: seq<bv8>) returns (request: string)
    requires |user| <= MAX_CREDENTIAL && |pass| <= MAX_CREDENTIAL
    ensures request == RequestLines(ip, port) + AuthLine(user, pass) + KEEP_ALIVE_LC + EOL
    ensures |request| < HTTP_BUFFER_SIZE
  {
    RequestFits(ip, port, user, pass);
    var auth := "";
    if user != [] {
      var credentials := Printed(Credentials(user, pass), SOCKS5_BUFFER_SIZE);
      var encoded := new char[HTTP_BUFFER_SIZE];
      var len := EncodeByBytes(credentials, encoded);
      auth := BASIC + encoded[..len] + EOL;
    }
    request := Printed(RequestLines(ip, port) + auth + KEEP_ALIVE_LC + EOL, HTTP_BUFFER_SIZE);
  }
}
