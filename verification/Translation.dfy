/** The Windows packet rewriting: requests of proxied flows are turned towards the local relay, and the
    relay's replies are turned back into packets from the original destination. */
module Translation {
  import opened Net
  import opened Rules
  import opened RuleList
  import opened Connections
  import opened PacketEngine

  const LOOPBACK_1: uint32 := 0x0100_007F  // 127.0.0.1, first octet in the low byte

  /** The header fields that are read or rewritten; `closing` says FIN or RST is set. */
  datatype Header = Header(src: uint32, sport: uint16, dst: uint32, dport: uint16, outbound: bool, closing: bool)

  /** What becomes of a packet: sent with this header, or dropped when None. */
  type Fate = Option<Header>

  predicate LoopbackPair(h: Header) { Octet(h.src, 0) == 127 && Octet(h.dst, 0) == 127 }

  /** Unless both ends are loopback, the addresses change places and the packet is sent inbound. */
  function Turned(h: Header): Header {
    if LoopbackPair(h) then h else h.(src := h.dst, dst := h.src, outbound := false)
  }

  // note: unlike on Linux, loopback destinations may be proxied
  predicate IsCriticalAddress(ip: uint32) {
    var firstOctet, secondOctet := ip % 0x100, ip / 0x100 % 0x100;
    if firstOctet == 169 && secondOctet == 254 then true
    else if ip == 0xFFFF_FFFF then true
    else if ip / 0x100_0000 == 0xFF then true
    else firstOctet >= 224 && firstOctet <= 239
  }

  /** Settings, rules and what is known of the sender, for a packet that belongs to no tracked flow. */
  datatype Context = Context(cfg: Config, localhostViaProxy: bool, rules: seq<Rule>, who: Sender)

  function NewFlowAction(c: Context, h: Header, isUdp: bool): RuleAction {
    var action := if h.dport == 53 && !c.cfg.dnsViaProxy then DIRECT
                  else CheckProcessRule(Windows, c.cfg, c.rules, c.who, isUdp);
    if action == PROXY && !c.localhostViaProxy && h.dst % 0x100 == 127 then DIRECT
    else if action == PROXY && IsCriticalAddress(h.dst) then DIRECT
    else if action == PROXY && isUdp && (h.dport == 67 || h.dport == 68) then DIRECT
    else action
  }

  /** Adds an entry; should the port already have one, its stamp is kept. */
  function Added(m: Conns, h: Header, now: uint64, room: bool): Conns {
    if h.sport in m then m[h.sport := Entry(h.src, h.dst, h.dport, true, m[h.sport].lastActivity)]
    else if room then m[h.sport := Entry(h.src, h.dst, h.dport, true, now)]
    else m
  }

  function TouchedAt(m: Conns, port: uint16, now: uint64): Conns {
    if port in m then m[port := Touched(now, m[port])] else m
  }

  function Forgotten(m: Conns, h: Header, port: uint16): Conns { if h.closing then m - {port} else m }

  // ---------- one packet ----------

  /** A reply of the relay: the original port is restored before the entry may be forgotten. */
  function TcpFromRelay(m: Conns, h: Header, now: uint64): (Fate, Conns) {
    (Some(Turned(if h.dport in m then h.(sport := m[h.dport].destPort) else h)),
     Forgotten(TouchedAt(m, h.dport, now), h, h.dport))
  }

  function TcpNew(m: Conns, h: Header, c: Context, now: uint64, room: bool): (Fate, Conns) {
    if FastPath(c.cfg, c.rules) then (Some(h), m)
    else match NewFlowAction(c, h, false)
      case DIRECT => (Some(h), m)
      case BLOCK => (None, m)
      case PROXY => (Some(Turned(h.(dport := c.cfg.relayPort))), Added(m, h, now, room))
  }

  function TranslateTcp(m: Conns, h: Header, c: Context, now: uint64, room: bool): (Fate, Conns) {
    if !h.outbound then (Some(h), m)
    else if h.sport == c.cfg.relayPort then TcpFromRelay(m, h, now)
    else if h.sport in m then (Some(Turned(h.(dport := c.cfg.relayPort))), Forgotten(m, h, h.sport))
    else TcpNew(m, h, c, now, room)
  }

  function UdpFromRelay(m: Conns, h: Header, now: uint64): (Fate, Conns) {
    (Some(if h.dport in m then h.(src := m[h.dport].destIp, sport := m[h.dport].destPort, outbound := false)
          else h.(outbound := false)),
     TouchedAt(m, h.dport, now))
  }

  function UdpNew(m: Conns, h: Header, c: Context, now: uint64, room: bool): (Fate, Conns) {
    if FastPath(c.cfg, c.rules) then (Some(h), m)
    else match NewFlowAction(c, h, true)
      case DIRECT => (Some(h), m)
      case BLOCK => (None, m)
      case PROXY =>
        (Some(h.(dport := LOCAL_UDP_RELAY_PORT, dst := LOOPBACK_1, outbound := Octet(h.src, 0) == 127)),
         Added(m, h, now, room))
  }

  function TranslateUdp(m: Conns, h: Header, c: Context, now: uint64, room: bool): (Fate, Conns) {
    if !h.outbound then (Some(h), m)
    else if h.sport == LOCAL_UDP_RELAY_PORT then UdpFromRelay(m, h, now)
    else if h.sport in m then
      (Some(h.(dport := LOCAL_UDP_RELAY_PORT, src := h.dst, dst := h.src, outbound := false)), m)
    else UdpNew(m, h, c, now, room)
  }

  // ---------- what becomes of each packet, in plain terms ----------

  /** The rules decide a packet of a flow not tracked yet. */
  predicate RulesDecide(c: Context, h: Header) {
    (AnyEnabled(c.rules) || c.cfg.callback) && Foreign(c.cfg, c.who) && (h.dport == 53 ==> c.cfg.dnsViaProxy)
  }

  ghost predicate Blocked(c: Context, h: Header, isUdp: bool) {
    RulesDecide(c, h) && ListDecides(c.rules, Windows, c.who.answers, isUdp, BLOCK)
  }

  ghost predicate Proxied(c: Context, h: Header, isUdp: bool) {
    && RulesDecide(c, h) && ListDecides(c.rules, Windows, c.who.answers, isUdp, PROXY)
    && c.cfg.proxyHost != "" && c.cfg.proxyPort != 0
    && (Loopback(h.dst) ==> c.localhostViaProxy) && !LinkLocal(h.dst) && !Multicast(h.dst) && !EndsIn255(h.dst)
    && (isUdp ==> c.cfg.proxyType == SOCKS5 && h.dport != 67 && h.dport != 68)
  }

  lemma CriticalAddressMeans(ip: uint32)
    ensures IsCriticalAddress(ip) <==> LinkLocal(ip) || Multicast(ip) || EndsIn255(ip)
  {
  }

  lemma NewFlowActionMeans(c: Context, h: Header, isUdp: bool)
    requires AnyEnabled(c.rules) || c.cfg.callback
    ensures NewFlowAction(c, h, isUdp) == BLOCK <==> Blocked(c, h, isUdp)
    ensures NewFlowAction(c, h, isUdp) == PROXY <==> Proxied(c, h, isUdp)
  {
    CheckMeans(Windows, c.cfg, c.rules, c.who, isUdp);
    CriticalAddressMeans(h.dst);
  }

  /** The header of a TCP packet turned towards the relay. */
  function ToTcpRelay(h: Header, relayPort: uint16): Header {
    if Loopback(h.src) && Loopback(h.dst) then Header(h.src, h.sport, h.dst, relayPort, h.outbound, h.closing)
    else Header(h.dst, h.sport, h.src, relayPort, false, h.closing)
  }

  /** The first packet of a TCP flow is dropped exactly when the rules block it, turned towards the relay
      and remembered exactly when they proxy it, and otherwise passes unchanged and leaves no entry. */
  lemma TcpOfNewFlow(m: Conns, h: Header, c: Context, now: uint64, room: bool)
    requires h.outbound && h.sport != c.cfg.relayPort && h.sport !in m
    ensures var (fate, m1) := TranslateTcp(m, h, c, now, room);
            && (fate == None <==> Blocked(c, h, false))
            && (Proxied(c, h, false) ==>
                  && fate == Some(ToTcpRelay(h, c.cfg.relayPort))
                  && m1 == if room then m[h.sport := Entry(h.src, h.dst, h.dport, true, now)] else m)
            && (!Proxied(c, h, false) ==> m1 == m && (fate == None || fate == Some(h)))
  {
    if AnyEnabled(c.rules) || c.cfg.callback {
      NewFlowActionMeans(c, h, false);
    }
  }

  /** Later requests of a TCP flow go to the relay, whatever the rules say now; a closing one forgets it. */
  lemma TcpOfTrackedFlow(m: Conns, h: Header, c: Context, now: uint64, room: bool)
    requires h.outbound && h.sport != c.cfg.relayPort && h.sport in m
    ensures TranslateTcp(m, h, c, now, room)
            == (Some(ToTcpRelay(h, c.cfg.relayPort)), if h.closing then m - {h.sport} else m)
  {
  }

  /** A reply of the relay gets the original port back and, loopback aside, is sent inbound with its
      addresses exchanged; a closing one forgets the flow. */
  lemma TcpOfRelay(m: Conns, h: Header, c: Context, now: uint64, room: bool)
    requires h.outbound && h.sport == c.cfg.relayPort
    ensures var (fate, m1) := TranslateTcp(m, h, c, now, room);
            var sport := if h.dport in m then m[h.dport].destPort else h.sport;
            && fate == Some(if Loopback(h.src) && Loopback(h.dst)
                            then Header(h.src, sport, h.dst, h.dport, true, h.closing)
                            else Header(h.dst, sport, h.src, h.dport, false, h.closing))
            && (h.closing ==> m1 == m - {h.dport})
            && (!h.closing && h.dport in m ==> m1 == m[h.dport := m[h.dport].(lastActivity := now)])
            && (!h.closing && h.dport !in m ==> m1 == m)
  {
    if h.closing {
      assert TouchedAt(m, h.dport, now) - {h.dport} == m - {h.dport};
    }
  }

  lemma InboundPasses(m: Conns, h: Header, c: Context, now: uint64, room: bool)
    requires !h.outbound
    ensures TranslateTcp(m, h, c, now, room) == (Some(h), m) && TranslateUdp(m, h, c, now, room) == (Some(h), m)
  {
  }

  /** The first datagram of a flow is dropped exactly when the rules block it, sent to 127.0.0.1:34011 and
      remembered exactly when they proxy it, and otherwise passes unchanged and leaves no entry. */
  lemma UdpOfNewFlow(m: Conns, h: Header, c: Context, now: uint64, room: bool)
    requires h.outbound && h.sport != 34011 && h.sport !in m
    ensures var (fate, m1) := TranslateUdp(m, h, c, now, room);
            && (fate == None <==> Blocked(c, h, true))
            && (Proxied(c, h, true) ==>
                  && fate == Some(Header(h.src, h.sport, 0x0100_007F, 34011, Loopback(h.src), h.closing))
                  && m1 == if room then m[h.sport := Entry(h.src, h.dst, h.dport, true, now)] else m)
            && (!Proxied(c, h, true) ==> m1 == m && (fate == None || fate == Some(h)))
  {
    if AnyEnabled(c.rules) || c.cfg.callback {
      NewFlowActionMeans(c, h, true);
    }
  }

  /** Later datagrams from a tracked port go to the relay, whatever the rules say now. */
  lemma UdpOfTrackedFlow(m: Conns, h: Header, c: Context, now: uint64, room: bool)
    requires h.outbound && h.sport != 34011 && h.sport in m
    ensures TranslateUdp(m, h, c, now, room) == (Some(Header(h.dst, h.sport, h.src, 34011, false, h.closing)), m)
  {
  }

  /** A datagram of the relay gets the original address and port back and is sent inbound. */
  lemma UdpOfRelay(m: Conns, h: Header, c: Context, now: uint64, room: bool)
    requires h.outbound && h.sport == 34011
    ensures TranslateUdp(m, h, c, now, room)
            == if h.dport in m then
                 (Some(Header(m[h.dport].destIp, m[h.dport].destPort, h.dst, h.dport, false, h.closing)),
                  m[h.dport := m[h.dport].(lastActivity := now)])
               else (Some(Header(h.src, h.sport, h.dst, h.dport, false, h.closing)), m)
  {
  }

  /** With one rule that blocks everything, a packet to 1.1.1.1:443 is dropped. */
  lemma BlockedPacketIsDropped(answers: Answers, now: uint64, isUdp: bool)
    ensures var cfg := Config(false, true, SOCKS5, "proxy", 1080, 1, 34010);
            var c := Context(cfg, false, [Rule(1, "*", "*", "*", BOTH, BLOCK, true)], Sender(7, true, answers));
            var h := Header(0x0100_000A, 5000, 0x0101_0101, 443, true, false);
            (if isUdp then TranslateUdp(map[], h, c, now, true) else TranslateTcp(map[], h, c, now, true))
                == (None, map[])
  {
    var r := Rule(1, "*", "*", "*", BOTH, BLOCK, true);
    assert [r][0].enabled;
    OneRule(r, TiersOf(Windows, answers, isUdp, true));
  }

  // ---------- the rewriting in place ----------

  class PacketBuffer {
    var src: uint32
    var sport: uint16
    var dst: uint32
    var dport: uint16
    var outbound: bool
    const closing: bool

    ghost function View(): Header
      reads this
    {
      Header(src, sport, dst, dport, outbound, closing)
    }

    constructor (h: Header)
      ensures View() == h
    {
      src, sport, dst, dport, outbound, closing := h.src, h.sport, h.dst, h.dport, h.outbound, h.closing;
    }

    method SwapInbound()
      modifies this
      ensures View() == old(View()).(src := old(dst), dst := old(src), outbound := false)
    {
      var temp := dst;
      dst := src;
      src := temp;
      outbound := false;
    }

    method Turn()
      modifies this
      ensures View() == Turned(old(View()))
    {
      var isLoopback := Octet(src, 0) == 127 && Octet(dst, 0) == 127;
      if !isLoopback {
        SwapInbound();
      }
    }
  }

  class Diverter {
    const conns: ConnectionTable
    const rules: RuleList

    ghost predicate Valid()
      reads this, conns, conns.table, conns.table.Repr, rules, rules.Repr
    {
      && conns.Valid() && rules.Valid()
      && conns.table.Repr !! rules.Repr && this !in conns.table.Repr && this !in rules.Repr && conns !in rules.Repr
    }

    constructor ()
      ensures Valid() && conns.table.m == map[] && rules.chain.items == []
    {
      conns := new ConnectionTable();
      rules := new RuleList();
    }

    ghost function Ctx(cfg: Config, localhostViaProxy: bool, who: Sender): Context
      reads rules, rules.chain
    {
      Context(cfg, localhostViaProxy, rules.chain.items, who)
    }

    method Decide(b: PacketBuffer, cfg: Config, localhostViaProxy: bool, who: Sender, isUdp: bool)
      returns (action: RuleAction)
      requires Valid()
      ensures action == NewFlowAction(Ctx(cfg, localhostViaProxy, who), b.View(), isUdp)
    {
      if b.dport == 53 && !cfg.dnsViaProxy {
        action := DIRECT;
      } else if who.pid == 0 || who.pid == cfg.ownPid || !who.named {
        action := DIRECT;
      } else {
        action := rules.MatchRule(Windows, who.answers, isUdp);
        if action == PROXY && isUdp && cfg.proxyType == HTTP {
          action := DIRECT;
        } else if action == PROXY && (cfg.proxyHost == "" || cfg.proxyPort == 0) {
          action := DIRECT;
        }
      }
      if action == PROXY && !localhostViaProxy && b.dst % 0x100 == 127 { action := DIRECT; }
      if action == PROXY && IsCriticalAddress(b.dst) { action := DIRECT; }
      if isUdp && action == PROXY && (b.dport == 67 || b.dport == 68) { action := DIRECT; }
    }

    method ReplyTcp(b: PacketBuffer, now: uint64)
      requires Valid() && b !in conns.table.Repr && b !in rules.Repr
      modifies b, conns.table.Repr
      ensures Valid() && fresh(conns.table.Repr - old(conns.table.Repr)) && rules.chain.items == old(rules.chain.items)
      ensures (Some(b.View()), conns.table.m) == TcpFromRelay(old(conns.table.m), old(b.View()), now)
    {
      var dstPort := b.dport;
      var orig := conns.GetConnection(dstPort, now);
      if orig.Some? {
        b.sport := orig.value.1;
      }
      b.Turn();
      if b.closing {
        conns.RemoveConnection(dstPort);
      }
    }

    method NewTcp(b: PacketBuffer, cfg: Config, localhostViaProxy: bool, who: Sender, now: uint64, room: bool)
      returns (sent: bool)
      requires b.sport !in conns.table.m
      requires Valid() && b !in conns.table.Repr && b !in rules.Repr
      modifies b, conns.table.Repr
      ensures Valid() && fresh(conns.table.Repr - old(conns.table.Repr)) && rules.chain.items == old(rules.chain.items)
      ensures (if sent then Some(b.View()) else None, conns.table.m)
              == TcpNew(old(conns.table.m), old(b.View()), old(Ctx(cfg, localhostViaProxy, who)), now, room)
    {
      if !rules.hasActive && !cfg.callback {
        return true;
      }
      var action := Decide(b, cfg, localhostViaProxy, who, false);
      sent := action != BLOCK;
      if action == PROXY {
        RedirectTcp(b, cfg.relayPort, now, room);
      }
    }

    method RedirectTcp(b: PacketBuffer, relayPort: uint16, now: uint64, room: bool)
      requires b.sport !in conns.table.m
      requires Valid() && b !in conns.table.Repr && b !in rules.Repr
      modifies b, conns.table.Repr
      ensures Valid() && fresh(conns.table.Repr - old(conns.table.Repr)) && rules.chain.items == old(rules.chain.items)
      ensures b.View() == Turned(old(b.View()).(dport := relayPort))
      ensures conns.table.m == Added(old(conns.table.m), old(b.View()), now, room)
    {
      conns.AddConnection(b.sport, b.src, b.dst, b.dport, now, room);
      b.dport := relayPort;
      b.Turn();
    }

    method ProcessTcp(b: PacketBuffer, cfg: Config, localhostViaProxy: bool, who: Sender, now: uint64, room: bool)
      returns (sent: bool)
      requires Valid() && b !in conns.table.Repr && b !in rules.Repr
      modifies b, conns.table.Repr
      ensures Valid() && fresh(conns.table.Repr - old(conns.table.Repr)) && rules.chain.items == old(rules.chain.items)
      ensures (if sent then Some(b.View()) else None, conns.table.m)
              == TranslateTcp(old(conns.table.m), old(b.View()), old(Ctx(cfg, localhostViaProxy, who)), now, room)
    {
      if !b.outbound {
        return true;
      }
      if b.sport == cfg.relayPort {
        ReplyTcp(b, now);
        return true;
      }
      var tracked := conns.IsConnectionTracked(b.sport);
      if tracked {
        if b.closing {
          conns.RemoveConnection(b.sport);
        }
        b.dport := cfg.relayPort;
        b.Turn();
        return true;
      }
      sent := NewTcp(b, cfg, localhostViaProxy, who, now, room);
    }

    method ReplyUdp(b: PacketBuffer, now: uint64)
      requires Valid() && b !in conns.table.Repr && b !in rules.Repr
      modifies b, conns.table.Repr
      ensures Valid() && fresh(conns.table.Repr - old(conns.table.Repr)) && rules.chain.items == old(rules.chain.items)
      ensures (Some(b.View()), conns.table.m) == UdpFromRelay(old(conns.table.m), old(b.View()), now)
    {
      var orig := conns.GetConnection(b.dport, now);
      if orig.Some? {
        b.src := orig.value.0;
        b.sport := orig.value.1;
      }
      b.outbound := false;
    }

    method NewUdp(b: PacketBuffer, cfg: Config, localhostViaProxy: bool, who: Sender, now: uint64, room: bool)
      returns (sent: bool)
      requires b.sport !in conns.table.m && b.outbound
      requires Valid() && b !in conns.table.Repr && b !in rules.Repr
      modifies b, conns.table.Repr
      ensures Valid() && fresh(conns.table.Repr - old(conns.table.Repr)) && rules.chain.items == old(rules.chain.items)
      ensures (if sent then Some(b.View()) else None, conns.table.m)
              == UdpNew(old(conns.table.m), old(b.View()), old(Ctx(cfg, localhostViaProxy, who)), now, room)
    {
      if !rules.hasActive && !cfg.callback {
        return true;
      }
      var action := Decide(b, cfg, localhostViaProxy, who, true);
      sent := action != BLOCK;
      if action == PROXY {
        RedirectUdp(b, now, room);
      }
    }

    method RedirectUdp(b: PacketBuffer, now: uint64, room: bool)
      requires b.sport !in conns.table.m && b.outbound
      requires Valid() && b !in conns.table.Repr && b !in rules.Repr
      modifies b, conns.table.Repr
      ensures Valid() && fresh(conns.table.Repr - old(conns.table.Repr)) && rules.chain.items == old(rules.chain.items)
      ensures b.View() == old(b.View()).(dport := LOCAL_UDP_RELAY_PORT, dst := LOOPBACK_1,
                                         outbound := Octet(old(b.src), 0) == 127)
      ensures conns.table.m == Added(old(conns.table.m), old(b.View()), now, room)
    {
      conns.AddConnection(b.sport, b.src, b.dst, b.dport, now, room);
      b.dport := LOCAL_UDP_RELAY_PORT;
      b.dst := LOOPBACK_1;
      if Octet(b.src, 0) != 127 {
        b.outbound := false;
      }
    }

    method ProcessUdp(b: PacketBuffer, cfg: Config, localhostViaProxy: bool, who: Sender, now: uint64, room: bool)
      returns (sent: bool)
      requires Valid() && b !in conns.table.Repr && b !in rules.Repr
      modifies b, conns.table.Repr
      ensures Valid() && fresh(conns.table.Repr - old(conns.table.Repr)) && rules.chain.items == old(rules.chain.items)
      ensures (if sent then Some(b.View()) else None, conns.table.m)
              == TranslateUdp(old(conns.table.m), old(b.View()), old(Ctx(cfg, localhostViaProxy, who)), now, room)
    {
      if !b.outbound {
        return true;
      }
      if b.sport == LOCAL_UDP_RELAY_PORT {
        ReplyUdp(b, now);
        return true;
      }
      var tracked := conns.IsConnectionTracked(b.sport);
      if tracked {
        b.dport := LOCAL_UDP_RELAY_PORT;
        b.SwapInbound();
        return true;
      }
      sent := NewUdp(b, cfg, localhostViaProxy, who, now, room);
    }
  }

  // ---------- the reply direction inverts the request direction ----------

  /** A flow as the application sees it. */
  datatype Flow = Flow(s: uint32, sp: uint16, d: uint32, dp: uint16)

  function Request(f: Flow, closing: bool): Header { Header(f.s, f.sp, f.d, f.dp, true, closing) }

  /** The application receives `h` as a packet of flow `f` from its original destination. */
  predicate Reaches(h: Header, f: Flow) { h.src == f.d && h.sport == f.dp && h.dst == f.s && h.dport == f.sp }

  /** The packet a socket sends back for one that reached it as `h`. */
  function Answering(h: Header, closing: bool): Header { Header(h.dst, h.dport, h.src, h.sport, true, closing) }

  predicate Holds(m: Conns, f: Flow) {
    f.sp in m && m[f.sp].srcIp == f.s && m[f.sp].destIp == f.d && m[f.sp].destPort == f.dp
  }

  /** The first TCP packet of a proxied flow and every later one are rewritten alike, and the first one
      leaves the flow in the table. */
  lemma TcpFirstAndLaterAlike(f: Flow, m: Conns, m1: Conns, c: Context, c1: Context, now: uint64, now1: uint64,
      closing: bool)
    requires f.sp !in m && f.sp != c.cfg.relayPort && !FastPath(c.cfg, c.rules)
        && NewFlowAction(c, Request(f, closing), false) == PROXY
    requires f.sp in m1 && c1.cfg.relayPort == c.cfg.relayPort
    ensures TranslateTcp(m, Request(f, closing), c, now, true).0
        == TranslateTcp(m1, Request(f, closing), c1, now1, true).0
    ensures Holds(TranslateTcp(m, Request(f, closing), c, now, true).1, f)
  {
  }

  /** A TCP reply of the relay reaches the application as `d:dp -> s:sp`, swapped or loopback, exactly
      when the table then gives the flow's port its original port (or that port is the relay's own). */
  lemma TcpReplyInvertsIff(f: Flow, m: Conns, m1: Conns, c: Context, c1: Context, now: uint64, now1: uint64,
      closing: bool, closing1: bool)
    requires f.sp in m && f.sp != c.cfg.relayPort == c1.cfg.relayPort
    ensures var request := TranslateTcp(m, Request(f, closing), c, now, true).0;
            && request.Some? && request.value.dport == c.cfg.relayPort && request.value.sport == f.sp
            && var reply := TranslateTcp(m1, Answering(request.value, closing1), c1, now1, true).0;
            && reply.Some?
            && (Reaches(reply.value, f) <==> (if f.sp in m1 then m1[f.sp].destPort else c.cfg.relayPort) == f.dp)
  {
  }

  /** The UDP relay answers the address in the table from whichever local address `x` the system picks;
      the application sees the original destination exactly when the table holds it. */
  lemma UdpReplyInvertsIff(f: Flow, m: Conns, c: Context, now: uint64, x: uint32)
    requires f.sp in m && m[f.sp].srcIp == f.s
    ensures var answer := Header(x, LOCAL_UDP_RELAY_PORT, m[f.sp].srcIp, f.sp, true, false);
            var reply := TranslateUdp(m, answer, c, now, true).0;
            reply.Some? && (Reaches(reply.value, f) <==> Holds(m, f))
  {
  }

  /** First and later UDP packets take different routes but both reach the relay's port from port `sp`. */
  lemma UdpRequestsReachRelay(f: Flow, m: Conns, c: Context, now: uint64)
    requires f.sp != LOCAL_UDP_RELAY_PORT
    requires f.sp in m || (!FastPath(c.cfg, c.rules) && NewFlowAction(c, Request(f, false), true) == PROXY)
    ensures var (fate, m1) := TranslateUdp(m, Request(f, false), c, now, true);
            && fate.Some? && fate.value.dport == LOCAL_UDP_RELAY_PORT && fate.value.sport == f.sp
            && (f.sp !in m ==> Holds(m1, f))
  {
  }

  // ---------- whole runs ----------

  datatype Step =
    | TcpPacket(h: Header, c: Context, now: uint64, room: bool)
    | UdpPacket(h: Header, c: Context, now: uint64, room: bool)
    | RelayLookup(port: uint16, now: uint64)
    | Sweep(now: uint64)

  function Next(m: Conns, s: Step): Conns {
    match s
    case TcpPacket(h, c, now, room) => TranslateTcp(m, h, c, now, room).1
    case UdpPacket(h, c, now, room) => TranslateUdp(m, h, c, now, room).1
    case RelayLookup(port, now) => TouchedAt(m, port, now)
    case Sweep(now) => Swept(m, now)
  }

  function Run(m: Conns, steps: seq<Step>): Conns {
    if steps == [] then m else Next(Run(m, steps[..|steps| - 1]), steps[|steps| - 1])
  }

  lemma NextKeepsFlow(m: Conns, s: Step, f: Flow)
    requires Holds(m, f) && f.sp in Next(m, s)
    ensures Holds(Next(m, s), f)
  {
  }

  lemma {:induction false} RunKeepsFlow(m: Conns, steps: seq<Step>, f: Flow)
    requires Holds(m, f)
    requires forall j :: 0 <= j <= |steps| ==> f.sp in Run(m, steps[..j])
    ensures Holds(Run(m, steps), f)
  {
    assert steps[..|steps|] == steps;
    if steps != [] {
      var before := steps[..|steps| - 1];
      forall j | 0 <= j <= |before|
        ensures f.sp in Run(m, before[..j])
      {
        assert before[..j] == steps[..j];
      }
      RunKeepsFlow(m, before, f);
      NextKeepsFlow(Run(m, before), steps[|steps| - 1], f);
    }
  }

  /** Whole-run inversion for TCP: after the first packet of a proxied flow, whatever packets, lookups
      and sweeps follow, as long as the flow's port stays tracked throughout, a request of the flow is
      rewritten as the first one was and the relay's reply to it reaches the application as `d:dp -> s:sp`. */
  lemma TcpInvertsWhileTracked(m: Conns, f: Flow, c: Context, now: uint64, steps: seq<Step>, c1: Context, now1: uint64)
    requires f.sp !in m && f.sp != c.cfg.relayPort == c1.cfg.relayPort
    requires !FastPath(c.cfg, c.rules) && NewFlowAction(c, Request(f, false), false) == PROXY
    requires var m1 := TranslateTcp(m, Request(f, false), c, now, true).1;
             forall j :: 0 <= j <= |steps| ==> f.sp in Run(m1, steps[..j])
    ensures var (first, m1) := TranslateTcp(m, Request(f, false), c, now, true);
            var m2 := Run(m1, steps);
            && first.Some? && TranslateTcp(m2, Request(f, false), c1, now1, true).0 == first
            && var reply := TranslateTcp(m2, Answering(first.value, false), c1, now1, true).0;
            reply.Some? && Reaches(reply.value, f)
  {
    var m1 := TranslateTcp(m, Request(f, false), c, now, true).1;
    RunKeepsFlow(m1, steps, f);
    var m2 := Run(m1, steps);
    TcpFirstAndLaterAlike(f, m, m2, c, c1, now, now1, false);
    TcpReplyInvertsIff(f, m2, m2, c1, c1, now1, now1, false, false);
  }

  /** Whole-run inversion for UDP. */
  lemma UdpInvertsWhileTracked(m: Conns, f: Flow, c: Context, now: uint64, steps: seq<Step>, c1: Context,
      now1: uint64, x: uint32)
    requires f.sp !in m && f.sp != LOCAL_UDP_RELAY_PORT
    requires !FastPath(c.cfg, c.rules) && NewFlowAction(c, Request(f, false), true) == PROXY
    requires var m1 := TranslateUdp(m, Request(f, false), c, now, true).1;
             forall j :: 0 <= j <= |steps| ==> f.sp in Run(m1, steps[..j])
    ensures var m2 := Run(TranslateUdp(m, Request(f, false), c, now, true).1, steps);
            && f.sp in m2
            && var answer := Header(x, LOCAL_UDP_RELAY_PORT, m2[f.sp].srcIp, f.sp, true, false);
            var reply := TranslateUdp(m2, answer, c1, now1, true).0;
            reply.Some? && Reaches(reply.value, f)
  {
    var m1 := TranslateUdp(m, Request(f, false), c, now, true).1;
    UdpRequestsReachRelay(f, m, c, now);
    RunKeepsFlow(m1, steps, f);
    UdpReplyInvertsIff(f, Run(m1, steps), c1, now1, x);
  }

  /** Once the application's FIN or RST has passed the port is forgotten, and a later reply of the relay
      keeps the relay's port unless the original port was the same. */
  lemma AfterFinReplyKeepsRelayPort(f: Flow, m: Conns, c: Context, now: uint64, now1: uint64)
    requires f.sp in m && f.sp != c.cfg.relayPort
    ensures var (request, m1) := TranslateTcp(m, Request(f, true), c, now, true);
            && request.Some? && f.sp !in m1
            && var reply := TranslateTcp(m1, Answering(request.value, false), c, now1, true).0;
            && reply.Some? && reply.value.sport == c.cfg.relayPort
            && (Reaches(reply.value, f) <==> f.dp == c.cfg.relayPort)
  {
    TcpReplyInvertsIff(f, m, m - {f.sp}, c, c, now, now1, true, false);
  }

  /** The relay's own FIN or RST still reaches the application from the original port, but it forgets the
      flow too: any later reply keeps the relay's port unless the original port was the same. */
  lemma AfterRelayFinReplyKeepsRelayPort(f: Flow, m: Conns, c: Context, now: uint64, now1: uint64, now2: uint64)
    requires Holds(m, f) && f.sp != c.cfg.relayPort
    ensures var request := TranslateTcp(m, Request(f, false), c, now, true).0;
            && request.Some?
            && var (last, m1) := TranslateTcp(m, Answering(request.value, true), c, now1, true);
            && last.Some? && Reaches(last.value, f) && f.sp !in m1
            && var later := TranslateTcp(m1, Answering(request.value, false), c, now2, true).0;
            && later.Some? && later.value.sport == c.cfg.relayPort
            && (Reaches(later.value, f) <==> f.dp == c.cfg.relayPort)
  {
    TcpReplyInvertsIff(f, m, m, c, c, now, now1, false, true);
    TcpReplyInvertsIff(f, m, m - {f.sp}, c, c, now, now2, false, false);
  }

  // ---------- one port, several destinations ----------

  /** Once the first datagram of a proxied flow has been seen, and while its port stays tracked, every
      datagram from that port goes to the relay and from there to the first one's destination; that is its
      own destination exactly when the two are the same. */
  lemma UdpReachesItsDestinationIff(m: Conns, f: Flow, c: Context, now: uint64, steps: seq<Step>, g: Flow,
      c1: Context, now1: uint64)
    requires f.sp !in m && f.sp != LOCAL_UDP_RELAY_PORT
    requires !FastPath(c.cfg, c.rules) && NewFlowAction(c, Request(f, false), true) == PROXY
    requires var m1 := TranslateUdp(m, Request(f, false), c, now, true).1;
             forall j :: 0 <= j <= |steps| ==> f.sp in Run(m1, steps[..j])
    requires g.sp == f.sp
    ensures var m2 := Run(TranslateUdp(m, Request(f, false), c, now, true).1, steps);
            var (fate, m3) := TranslateUdp(m2, Request(g, false), c1, now1, true);
            && fate.Some? && fate.value.sport == g.sp && fate.value.dport == LOCAL_UDP_RELAY_PORT
            && Answer(m3, g.sp) == Some((f.d, f.dp))
            && (Answer(m3, g.sp) == Some((g.d, g.dp)) <==> g.d == f.d && g.dp == f.dp)
  {
    var m1 := TranslateUdp(m, Request(f, false), c, now, true).1;
    UdpRequestsReachRelay(f, m, c, now);
    assert steps[..|steps|] == steps;
    RunKeepsFlow(m1, steps, f);
    UdpRequestsReachRelay(g, Run(m1, steps), c1, now1);
  }

  /** The same for TCP: a segment from the port to another destination also reaches the relay, which takes
      it to the stored one. */
  lemma TcpReachesItsDestinationIff(m: Conns, f: Flow, c: Context, now: uint64, steps: seq<Step>, g: Flow,
      c1: Context, now1: uint64)
    requires f.sp !in m && f.sp != c.cfg.relayPort == c1.cfg.relayPort
    requires !FastPath(c.cfg, c.rules) && NewFlowAction(c, Request(f, false), false) == PROXY
    requires var m1 := TranslateTcp(m, Request(f, false), c, now, true).1;
             forall j :: 0 <= j <= |steps| ==> f.sp in Run(m1, steps[..j])
    requires g.sp == f.sp
    ensures var m2 := Run(TranslateTcp(m, Request(f, false), c, now, true).1, steps);
            var (fate, m3) := TranslateTcp(m2, Request(g, false), c1, now1, true);
            && fate.Some? && fate.value.sport == g.sp && fate.value.dport == c.cfg.relayPort
            && Answer(m3, g.sp) == Some((f.d, f.dp))
            && (Answer(m3, g.sp) == Some((g.d, g.dp)) <==> g.d == f.d && g.dp == f.dp)
  {
    var m1 := TranslateTcp(m, Request(f, false), c, now, true).1;
    TcpFirstAndLaterAlike(f, m, m1, c, c1, now, now1, false);
    assert steps[..|steps|] == steps;
    RunKeepsFlow(m1, steps, f);
  }

  /** A datagram to 1.1.1.1:443 from a port tracked for 8.8.8.8:53 is relayed to 8.8.8.8:53. */
  lemma DatagramIsMisdirected(c: Context, now: uint64)
    ensures var m: Conns := map[5000 := Entry(0x0100_000A, 0x0808_0808, 53, true, now)];
            var (fate, m1) := TranslateUdp(m, Header(0x0100_000A, 5000, 0x0101_0101, 443, true, false), c, now, true);
            && fate.Some? && fate.value.sport == 5000 && fate.value.dport == LOCAL_UDP_RELAY_PORT
            && Answer(m1, 5000) == Some((0x0808_0808, 53))
  {
  }
  // ---------- where entries come from ----------

  /** Step `s` shows the engine an outbound packet from `port`. */
  predicate Shows(s: Step, port: uint16) { (s.TcpPacket? || s.UdpPacket?) && s.h.outbound && s.h.sport == port }

  /** Only the first packet of a flow that the rules proxy adds an entry, and it holds what the packet said. */
  lemma NewEntryIsProxied(m: Conns, s: Step, port: uint16)
    requires port !in m && port in Next(m, s)
    ensures Shows(s, port) && Proxied(s.c, s.h, s.UdpPacket?)
    ensures Next(m, s)[port] == Entry(s.h.src, s.h.dst, s.h.dport, true, s.now)
  {
    match s {
      case TcpPacket(h, c, now, room) =>
        if h.outbound && h.sport != c.cfg.relayPort && h.sport !in m {
          TcpOfNewFlow(m, h, c, now, room);
        }
      case UdpPacket(h, c, now, room) =>
        if h.outbound && h.sport != 34011 && h.sport !in m {
          UdpOfNewFlow(m, h, c, now, room);
        }
      case RelayLookup(_, _) =>
      case Sweep(_) =>
    }
  }

  /** Whole-run soundness: every entry was created by one packet that the rules proxied, sent by a known
      process other than the engine, and has kept that packet's source and destination ever since. */
  lemma {:induction false} EntriesComeFromOneFlow(steps: seq<Step>, port: uint16) returns (i: nat)
    requires port in Run(map[], steps)
    ensures i < |steps| && Shows(steps[i], port) && Proxied(steps[i].c, steps[i].h, steps[i].UdpPacket?)
    ensures Foreign(steps[i].c.cfg, steps[i].c.who)
    ensures port !in Run(map[], steps[..i])
    ensures Holds(Run(map[], steps), Flow(steps[i].h.src, port, steps[i].h.dst, steps[i].h.dport))
    decreases |steps|
  {
    var n := |steps| - 1;
    var before, last := steps[..n], steps[n];
    if port in Run(map[], before) {
      i := EntriesComeFromOneFlow(before, port);
      assert before[..i] == steps[..i];
      NextKeepsFlow(Run(map[], before), last, Flow(steps[i].h.src, port, steps[i].h.dst, steps[i].h.dport));
    } else {
      i := n;
      NewEntryIsProxied(Run(map[], before), last, port);
    }
  }
}
