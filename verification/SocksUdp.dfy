/** The SOCKS5 UDP request header (section 7 of RFC 1928): the Linux relay, which handles IPv4 only,
    and the macOS extension, which handles all three address types. */
module SocksUdp {
  import opened Net
  import opened Connections

  const HEADER: nat := 10
  const BUFFER: nat := 65536
  const ATYP_IPV4: byte := 1
  const ATYP_DOMAIN: byte := 3
  const ATYP_IPV6: byte := 4

  function PortBytes(port: uint16): seq<byte> { [port / 0x100, port % 0x100] }

  function PortOf(hi: byte, lo: byte): uint16 { hi * 0x100 + lo }

  // ---------- Linux ----------

  /** The address as it lies in memory. */
  function IpBytes(ip: uint32): seq<byte> { [Octet(ip, 0), Octet(ip, 1), Octet(ip, 2), Octet(ip, 3)] }

  function Wrapped(ip: uint32, port: uint16, data: seq<byte>): seq<byte> {
    [0, 0, 0, ATYP_IPV4] + IpBytes(ip) + PortBytes(port) + data
  }

  datatype Datagram = Datagram(ip: uint32, port: uint16, data: seq<byte>)

  /** Short, fragmented and non-IPv4 datagrams are dropped. */
  function Unwrap(packet: seq<byte>): Option<Datagram> {
    if |packet| < HEADER then None
    else if packet[2] != 0 then None
    else if packet[3] != ATYP_IPV4 then None
    else Some(Datagram(IpOf(packet[4], packet[5], packet[6], packet[7]),
                       PortOf(packet[8], packet[9]), packet[HEADER..]))
  }

  /** Unwrapping a wrapped datagram gives back address, port and payload. */
  lemma UnwrapOfWrapped(ip: uint32, port: uint16, data: seq<byte>)
    ensures Unwrap(Wrapped(ip, port, data)) == Some(Datagram(ip, port, data))
  {
    IpOfOctets(ip);
    var w := Wrapped(ip, port, data);
    assert w[4..8] == IpBytes(ip) && w[HEADER..] == data;
    assert w[4] == w[4..8][0] && w[5] == w[4..8][1] && w[6] == w[4..8][2] && w[7] == w[4..8][3];
  }

  /** The header byte by byte: two reserved zeros, fragment zero, address type 1, the four octets of the
      address in order, and the port with its high byte first; then the payload. */
  lemma HeaderBytes(ip: uint32, port: uint16, data: seq<byte>)
    ensures var w := Wrapped(ip, port, data);
            && |w| == 10 + |data| && w[0] == 0 && w[1] == 0 && w[2] == 0 && w[3] == 1
            && w[4] == Octet(ip, 0) && w[5] == Octet(ip, 1) && w[6] == Octet(ip, 2) && w[7] == Octet(ip, 3)
            && (w[8] as int) * 256 + w[9] as int == port && w[10..] == data
  {
    var w := Wrapped(ip, port, data);
    assert w[4..8] == IpBytes(ip) && w[4] == w[4..8][0] && w[5] == w[4..8][1] && w[6] == w[4..8][2]
        && w[7] == w[4..8][3];
  }

  /** A datagram is dropped exactly when it is shorter than its header, a fragment or not for IPv4; any other
      is read from the same places. */
  lemma UnwrapMeans(packet: seq<byte>)
    ensures Unwrap(packet) == None <==> |packet| < 10 || packet[2] != 0 || packet[3] != 1
    ensures Unwrap(packet).Some? ==>
              var d := Unwrap(packet).value;
              && (forall k: nat :: k < 4 ==> Octet(d.ip, k) == packet[4 + k])
              && d.port == (packet[8] as int) * 256 + packet[9] as int && d.data == packet[10..]
  {
    if Unwrap(packet).Some? {
      OctetsOfIp(packet[4], packet[5], packet[6], packet[7]);
    }
  }

  /** Builds the datagram for the proxy in the send buffer; oversized payloads are skipped. */
  method BuildDatagram(buf: array<byte>, ip: uint32, port: uint16, data: seq<byte>) returns (len: nat)
    requires buf.Length == BUFFER
    modifies buf
    ensures if |data| > 65526 then len == 0 && buf[..] == old(buf[..])
            else len == 10 + |data| && buf[..len] == Wrapped(ip, port, data)
  {
    if |data| > buf.Length - HEADER {
      return 0;
    }
    buf[0], buf[1], buf[2], buf[3] := 0, 0, 0, ATYP_IPV4;
    buf[4], buf[5], buf[6], buf[7] := Octet(ip, 0), Octet(ip, 1), Octet(ip, 2), Octet(ip, 3);
    buf[8], buf[9] := port / 0x100, port % 0x100;
    forall i | 0 <= i < |data| {
      buf[HEADER + i] := data[i];
    }
    len := HEADER + |data|;
    assert buf[..HEADER] == [0, 0, 0, ATYP_IPV4] + IpBytes(ip) + PortBytes(port);
    assert buf[HEADER..len] == data;
    assert buf[..len] == buf[..HEADER] + buf[HEADER..len];
  }

  /** What the relay does with a datagram from the proxy: the client port and payload, if any. */
  method RouteReply(conns: ConnectionTable, packet: seq<byte>) returns (r: Option<(uint16, seq<byte>)>)
    requires conns.Valid()
    ensures match Unwrap(packet)
            case None => r == None
            case Some(d) =>
              r == match RouteOf(conns.table.heads.rows, d.ip, d.port)
                   case Some(p) => Some((p, d.data))
                   case None => None
  {
    if |packet| < HEADER { return None; }
    if packet[2] != 0 { return None; }
    if packet[3] != ATYP_IPV4 { return None; }
    var srcIp := IpOf(packet[4], packet[5], packet[6], packet[7]);
    var srcPort := PortOf(packet[8], packet[9]);
    var client := conns.ClientOf(srcIp, srcPort);
    r := if client.Some? then Some((client.value, packet[HEADER..])) else None;
  }

  /** The whole round: what the proxy returns for the destination of client `p` is delivered to `p`,
      unchanged, when no other tracked client has that destination. */
  method ReplyReachesSoleClient(conns: ConnectionTable, p: uint16, reply: seq<byte>)
    returns (r: Option<(uint16, seq<byte>)>)
    requires conns.Valid() && p in conns.table.m
    requires forall q :: Clients(conns.table.m, q, conns.table.m[p].destIp, conns.table.m[p].destPort) ==> q == p
    ensures r == Some((p, reply))
  {
    ghost var e := conns.table.m[p];
    var found := conns.table.Lookup(p, (e: Entry) => true);
    UnwrapOfWrapped(e.destIp, e.destPort, reply);
    r := RouteReply(conns, Wrapped(found.value.destIp, found.value.destPort, reply));
    SoleClientIsFound(conns.table.heads.rows, conns.table.m, p, e.destIp, e.destPort);
  }

  /** Ports 1000 and 1256 hold one destination: what the proxy returns for 1000 is delivered to 1256. */
  method ReplyMeantForOneReachesOther(ip: uint32, port: uint16, now: uint64, reply: seq<byte>)
    returns (r: Option<(uint16, seq<byte>)>)
    ensures r == Some((1256, reply))
  {
    var conns := NewestOfBucketTakesReplies(1000, 1256, ip, port, now);
    UnwrapOfWrapped(ip, port, reply);
    r := RouteReply(conns, Wrapped(ip, port, reply));
  }

  // ---------- macOS ----------

  const MAX_DATAGRAM: nat := 1400
  const MAX_PACKET: nat := 1472

  /** A destination after the address parsers have looked at its text.  A name is held as its UTF-8
      bytes and its number of characters, each of one byte or more. */
  datatype Host = V4(v4: seq<byte>) | V6(v6: seq<byte>) | Name(count: nat, name: seq<byte>)

  predicate WellFormed(h: Host) {
    && (h.V4? ==> |h.v4| == 4) && (h.V6? ==> |h.v6| == 16)
    && (h.Name? ==> h.count <= |h.name| && (h.count == 0 <==> h.name == []))
  }

  /** The header's length field holds characters, which count bytes only for ASCII names. */
  predicate LengthIsRight(h: Host) { h.Name? ==> h.count == |h.name| }

  function HostBytes(h: Host): seq<byte>
    requires WellFormed(h) && (h.Name? ==> h.count <= 255)
  {
    match h
    case V4(v4) => [ATYP_IPV4] + v4
    case V6(v6) => [ATYP_IPV6] + v6
    case Name(count, name) => [ATYP_DOMAIN, count] + name
  }

  /** Nothing is sent for a datagram above 1400 bytes, a name above 255 characters, or a packet above
      1472 bytes. */
  function Encapsulate(data: seq<byte>, h: Host, port: uint16): Option<seq<byte>>
    requires WellFormed(h)
  {
    if |data| > MAX_DATAGRAM then None
    else if h.Name? && h.count > 255 then None
    else
      var packet := [0, 0, 0] + HostBytes(h) + PortBytes(port) + data;
      if |packet| > MAX_PACKET then None else Some(packet)
  }

  /** An index past the end of the packet is a trap. */
  datatype Opened = Rejected | Trap | Payload(data: seq<byte>, host: Host, port: uint16)

  function Decapsulate(packet: seq<byte>): Opened {
    if |packet| <= 10 then Rejected
    else if packet[3] == ATYP_IPV4 then
      Rest(packet, 10, V4(packet[4..8]), PortOf(packet[8], packet[9]))
    else if packet[3] == ATYP_IPV6 then
      if |packet| < 22 then Trap else Rest(packet, 22, V6(packet[4..20]), PortOf(packet[20], packet[21]))
    else if packet[3] == ATYP_DOMAIN then
      var n: nat := packet[4];
      if |packet| < 5 + n + 2 then Trap
      else Rest(packet, 5 + n + 2, Name(n, packet[5..5 + n]), PortOf(packet[5 + n], packet[5 + n + 1]))
    else Rejected
  }

  function Rest(packet: seq<byte>, headerLen: nat, h: Host, port: uint16): Opened {
    if |packet| <= headerLen then Rejected else Payload(packet[headerLen..], h, port)
  }

  /** Nothing is sent exactly for payloads above 1400 bytes, names above 255 characters and packets above
      1472 bytes; any other packet has three zeros, the address type (1, 4 or 3), the address (for a name its
      length first), the port with its high byte first, and the payload. */
  lemma EncapsulateMeans(data: seq<byte>, h: Host, port: uint16)
    requires WellFormed(h)
    ensures var address := match h case V4(v4) => [1] + v4 case V6(v6) => [4] + v6 case Name(n, name) => [3, n] + name;
            && (Encapsulate(data, h, port) == None
                <==> |data| > 1400 || (h.Name? && h.count > 255) || 5 + |address| + |data| > 1472)
            && (Encapsulate(data, h, port).Some? ==>
                  exists hi: byte, lo: byte :: (hi as int) * 256 + lo as int == port
                    && Encapsulate(data, h, port).value == [0, 0, 0] + address + [hi, lo] + data)
  {
    var hi: byte, lo: byte := port / 0x100, port % 0x100;
    assert (hi as int) * 256 + lo as int == port;
  }

  /** Short packets and unknown address types are rejected. */
  lemma DecapsulateRejects(packet: seq<byte>)
    requires |packet| <= 10 || packet[3] !in {1, 3, 4}
    ensures Decapsulate(packet) == Rejected
  {
  }

  /** Where the parts of a packet lie. */
  lemma PacketParts(host: seq<byte>, port: uint16, data: seq<byte>)
    requires host != []
    ensures var packet := [0, 0, 0] + host + PortBytes(port) + data; var n := 5 + |host|;
            && packet[n..] == data && packet[n - 2] == port / 0x100 && packet[n - 1] == port % 0x100
            && packet[3] == host[0] && packet[4..3 + |host|] == host[1..] && (|host| > 1 ==> packet[4] == host[1])
  {
    var packet := [0, 0, 0] + host + PortBytes(port) + data;
    assert packet[3..3 + |host|] == host;
  }

  lemma HostRoundTrip(data: seq<byte>, h: Host, port: uint16)
    requires WellFormed(h) && (h.Name? ==> h.count <= 255) && LengthIsRight(h)
    ensures var packet := [0, 0, 0] + HostBytes(h) + PortBytes(port) + data;
            |packet| > 10 ==>
              && Decapsulate(packet) == Rest(packet, |packet| - |data|, h, port)
              && packet[|packet| - |data|..] == data
  {
    PacketParts(HostBytes(h), port, data);
    if h.Name? {
      var packet := [0, 0, 0] + HostBytes(h) + PortBytes(port) + data;
      assert packet[5..5 + |h.name|] == packet[4..5 + |h.name|][1..] == h.name;
    }
  }

  /** A name with characters of several bytes is cut short, and its tail is taken for port and payload. */
  lemma WideNameIsMisread(data: seq<byte>, h: Host, port: uint16)
    requires WellFormed(h) && h.Name? && h.count <= 255 && !LengthIsRight(h)
    ensures var packet := [0, 0, 0] + HostBytes(h) + PortBytes(port) + data;
            |packet| > 10 ==>
              Decapsulate(packet).Payload? && Decapsulate(packet).host != h && Decapsulate(packet).data != data
  {
    PacketParts(HostBytes(h), port, data);
    var packet := [0, 0, 0] + HostBytes(h) + PortBytes(port) + data;
    if |packet| > 10 {
      assert |packet[5 + h.count + 2..]| > |data|;
    }
  }

  /** Opening an encapsulated datagram never traps, and returns the same payload, host and port exactly
      when the payload is not empty, the packet exceeds 10 bytes and the host is no name with characters
      of several bytes. */
  lemma DecapsulateOfEncapsulate(data: seq<byte>, h: Host, port: uint16)
    requires WellFormed(h) && Encapsulate(data, h, port).Some?
    ensures var packet := Encapsulate(data, h, port).value;
            && !Decapsulate(packet).Trap?
            && (Decapsulate(packet) == Payload(data, h, port) <==> data != [] && |packet| > 10 && LengthIsRight(h))
            && (Decapsulate(packet) == Rejected <==> |packet| <= 10 || (data == [] && LengthIsRight(h)))
  {
    if LengthIsRight(h) {
      HostRoundTrip(data, h, port);
    } else {
      WideNameIsMisread(data, h, port);
    }
  }

  /** The datagrams lost to the length guard: non-empty payloads to names of at most two bytes. */
  lemma ShortNamesAreLost(data: seq<byte>, h: Host, port: uint16)
    requires WellFormed(h) && Encapsulate(data, h, port).Some? && data != []
    ensures Decapsulate(Encapsulate(data, h, port).value) == Rejected <==> h.Name? && |h.name| + |data| <= 3
  {
    DecapsulateOfEncapsulate(data, h, port);
  }
}
