/** The Linux packet verdict: which packets are accepted, dropped or marked for redirection, and what
    the connection table remembers of the marked ones. */
module PacketEngine {
  import opened Net
  import opened Rules
  import opened RuleList
  import opened Connections

  const LOCAL_UDP_RELAY_PORT: uint16 := 34011
  const IPHDR := 20
  const TCPHDR := 20
  const UDPHDR := 8

  datatype Transport =
    | Tcp(sport: uint16, dport: uint16, syn: bool, ack: bool)
    | Udp(sport: uint16, dport: uint16)
    | Other

  /** `hasId` is false when the queue delivered no packet header; `ihl` counts 32-bit words. */
  datatype Packet = Packet(hasId: bool, payloadLen: int, ihl: nat, srcIp: uint32, destIp: uint32, transport: Transport)

  /** `callback` says that a connection callback is installed. */
  datatype Config = Config(callback: bool, dnsViaProxy: bool, proxyType: ProxyType,
                           proxyHost: string, proxyPort: uint16,
                           ownPid: uint32, relayPort: uint16)

  /** What the system says of the packet's sender: its process id (0 when unknown), whether the
      process has a readable name, and what the rule matchers answer for it. */
  datatype Sender = Sender(pid: uint32, named: bool, answers: Answers)

  datatype Ruling = Accept | Drop | AcceptMarked(mark: nat)

  // ---------- addresses that are never proxied ----------

  predicate IsBroadcastOrMulticast(ip: uint32) {
    var firstOctet, secondOctet := ip % 0x100, ip / 0x100 % 0x100;
    if firstOctet == 127 then true
    else if firstOctet == 169 && secondOctet == 254 then true
    else if ip == 0xFFFF_FFFF then true
    else if ip / 0x100_0000 == 0xFF then true
    else firstOctet >= 224 && firstOctet <= 239
  }

  predicate Loopback(ip: uint32) { Octet(ip, 0) == 127 }
  predicate LinkLocal(ip: uint32) { Octet(ip, 0) == 169 && Octet(ip, 1) == 254 }
  predicate Multicast(ip: uint32) { 224 <= Octet(ip, 0) <= 239 }
  predicate EndsIn255(ip: uint32) { Octet(ip, 3) == 255 }

  predicate Unproxiable(ip: uint32) { Loopback(ip) || LinkLocal(ip) || Multicast(ip) || EndsIn255(ip) }

  lemma BroadcastTestMeans(ip: uint32)
    ensures IsBroadcastOrMulticast(ip) <==> Unproxiable(ip)
  {
  }

  // ---------- the verdict ----------

  function CheckProcessRule(e: Engine, cfg: Config, rules: seq<Rule>, who: Sender, isUdp: bool): RuleAction {
    if who.pid == 0 then DIRECT
    else if who.pid == cfg.ownPid then DIRECT
    else if !who.named then DIRECT
    else
      var action := Verdict(TwoTier(rules, TiersOf(e, who.answers, isUdp, true)));
      if action == PROXY && isUdp && cfg.proxyType == HTTP then DIRECT
      else if action == PROXY && (cfg.proxyHost == "" || cfg.proxyPort == 0) then DIRECT
      else action
  }

  /** The action for a packet that starts a new flow, after the overrides to DIRECT. */
  function FlowAction(cfg: Config, rules: seq<Rule>, p: Packet, who: Sender): RuleAction
    requires !p.transport.Other?
  {
    var isUdp, dport := p.transport.Udp?, p.transport.dport;
    var action := if dport == 53 && !cfg.dnsViaProxy then DIRECT else CheckProcessRule(Linux, cfg, rules, who, isUdp);
    if action == PROXY && IsBroadcastOrMulticast(p.destIp) then DIRECT
    else if action == PROXY && isUdp && (dport == 67 || dport == 68) then DIRECT
    else if action == PROXY && isUdp && cfg.proxyType != SOCKS5 then DIRECT
    else action
  }

  function RulingFor(action: RuleAction, mark: nat): Ruling {
    match action
    case DIRECT => Accept
    case BLOCK => Drop
    case PROXY => AcceptMarked(mark)
  }

  /** The ruling with the fast path left out. */
  function SlowRuling(cfg: Config, rules: seq<Rule>, conns: Conns, p: Packet, who: Sender): Ruling {
    match p.transport
    case Tcp(sport, _, syn, ack) =>
      if p.payloadLen < p.ihl * 4 + TCPHDR then Accept
      else if sport == cfg.relayPort then Accept
      else if sport in conns then Accept
      else if !(syn && !ack) then Accept
      else RulingFor(FlowAction(cfg, rules, p, who), 1)
    case Udp(sport, _) =>
      if p.payloadLen < p.ihl * 4 + UDPHDR then Accept
      else if sport == LOCAL_UDP_RELAY_PORT then Accept
      else if sport in conns then Accept
      else RulingFor(FlowAction(cfg, rules, p, who), 2)
    case Other => Accept
  }

  predicate FastPath(cfg: Config, rules: seq<Rule>) { !AnyEnabled(rules) && !cfg.callback }

  function RulingOn(cfg: Config, rules: seq<Rule>, conns: Conns, p: Packet, who: Sender): Ruling {
    if !p.hasId then Accept
    else if p.payloadLen < IPHDR then Accept
    else if FastPath(cfg, rules) then Accept
    else SlowRuling(cfg, rules, conns, p, who)
  }

  function Remembered(conns: Conns, p: Packet, ruling: Ruling, now: uint64, room: bool): Conns {
    if ruling.AcceptMarked? && !p.transport.Other? && (p.transport.sport in conns || room)
    then conns[p.transport.sport := Entry(p.srcIp, p.destIp, p.transport.dport, true, now)]
    else conns
  }

  /** Whenever the fast path is taken, the full path would also accept the packet unmarked and leave
      the connection table as it is. */
  lemma FastPathAgrees(cfg: Config, rules: seq<Rule>, conns: Conns, p: Packet, who: Sender, now: uint64, room: bool)
    requires FastPath(cfg, rules)
    ensures SlowRuling(cfg, rules, conns, p, who) == Accept == RulingOn(cfg, rules, conns, p, who)
    ensures Remembered(conns, p, SlowRuling(cfg, rules, conns, p, who), now, room) == conns
  {
    NoEnabledRuleMeansDirect(rules, Linux, who.answers, p.transport.Udp?, true);
  }

  // ---------- the verdict in plain terms ----------

  /** The packet's sender is known, has a name and is not the engine itself. */
  predicate Foreign(cfg: Config, who: Sender) { who.pid != 0 && who.named && who.pid != cfg.ownPid }

  /** The process check says BLOCK exactly when the sender is foreign and the deciding rule says so; it says
      PROXY when moreover the proxy is set and, for UDP, speaks SOCKS5. */
  lemma CheckMeans(e: Engine, cfg: Config, rules: seq<Rule>, who: Sender, isUdp: bool)
    ensures var action := CheckProcessRule(e, cfg, rules, who, isUdp);
            && (action == BLOCK <==> Foreign(cfg, who) && ListDecides(rules, e, who.answers, isUdp, BLOCK))
            && (action == PROXY <==>
                  && Foreign(cfg, who) && ListDecides(rules, e, who.answers, isUdp, PROXY)
                  && cfg.proxyHost != "" && cfg.proxyPort != 0 && (isUdp ==> cfg.proxyType == SOCKS5))
  {
    VerdictMeans(rules, e, who.answers, isUdp);
  }

  /** The rules decide the packet: its headers are complete, rules or a callback are active, and it starts a
      flow from a port that is neither tracked nor the relay's; name lookups only if they may be proxied. */
  predicate Decided(cfg: Config, rules: seq<Rule>, conns: Conns, p: Packet, who: Sender) {
    && p.hasId && p.payloadLen >= 20 && (AnyEnabled(rules) || cfg.callback) && Foreign(cfg, who)
    && match p.transport
       case Tcp(sport, dport, syn, ack) =>
         && p.payloadLen >= p.ihl * 4 + 20 && sport != cfg.relayPort && sport !in conns && syn && !ack
         && (dport == 53 ==> cfg.dnsViaProxy)
       case Udp(sport, dport) =>
         && p.payloadLen >= p.ihl * 4 + 8 && sport != 34011 && sport !in conns
         && (dport == 53 ==> cfg.dnsViaProxy)
       case Other => false
  }

  /** The proxy can carry the packet. */
  predicate Proxiable(cfg: Config, p: Packet) {
    && cfg.proxyHost != "" && cfg.proxyPort != 0
    && !Loopback(p.destIp) && !LinkLocal(p.destIp) && !Multicast(p.destIp) && !EndsIn255(p.destIp)
    && (p.transport.Udp? ==> cfg.proxyType == SOCKS5 && p.transport.dport != 67 && p.transport.dport != 68)
  }

  /** A packet is marked for redirection exactly when the rules decide it, the deciding rule says PROXY and
      the proxy can carry it; TCP is marked 1 and UDP 2. */
  lemma MarkedIff(cfg: Config, rules: seq<Rule>, conns: Conns, p: Packet, who: Sender, mark: nat)
    ensures RulingOn(cfg, rules, conns, p, who) == AcceptMarked(mark)
            <==> && Decided(cfg, rules, conns, p, who) && Proxiable(cfg, p)
                 && ListDecides(rules, Linux, who.answers, p.transport.Udp?, PROXY)
                 && mark == if p.transport.Tcp? then 1 else 2
  {
    CheckMeans(Linux, cfg, rules, who, p.transport.Udp?);
    BroadcastTestMeans(p.destIp);
  }

  /** A packet is dropped exactly when the rules decide it and the deciding rule says BLOCK. */
  lemma DroppedIff(cfg: Config, rules: seq<Rule>, conns: Conns, p: Packet, who: Sender)
    ensures RulingOn(cfg, rules, conns, p, who) == Drop
            <==> && Decided(cfg, rules, conns, p, who)
                 && ListDecides(rules, Linux, who.answers, p.transport.Udp?, BLOCK)
  {
    CheckMeans(Linux, cfg, rules, who, p.transport.Udp?);
  }

  /** The engine's own packets, and those of unknown or unnamed processes, pass and leave no entry. */
  lemma OwnPacketsPass(cfg: Config, rules: seq<Rule>, conns: Conns, p: Packet, who: Sender, now: uint64, room: bool)
    requires !Foreign(cfg, who)
    ensures RulingOn(cfg, rules, conns, p, who) == Accept && Remembered(conns, p, Accept, now, room) == conns
  {
    DroppedIff(cfg, rules, conns, p, who);
    var ruling := RulingOn(cfg, rules, conns, p, who);
    if ruling.AcceptMarked? {
      MarkedIff(cfg, rules, conns, p, who, ruling.mark);
    }
  }

  /** A marked packet leaves its flow in the table, memory permitting, and nothing else changes; any other
      packet leaves the table as it is. */
  lemma MarkedFlowIsRemembered(cfg: Config, rules: seq<Rule>, conns: Conns, p: Packet, who: Sender, now: uint64,
      room: bool)
    ensures var ruling := RulingOn(cfg, rules, conns, p, who);
            && (ruling.AcceptMarked? && room ==>
                  && !p.transport.Other?
                  && Remembered(conns, p, ruling, now, room)
                     == conns[p.transport.sport := Entry(p.srcIp, p.destIp, p.transport.dport, true, now)])
            && (!ruling.AcceptMarked? || !room ==> Remembered(conns, p, ruling, now, room) == conns)
  {
    var ruling := RulingOn(cfg, rules, conns, p, who);
    if ruling.AcceptMarked? {
      MarkedIff(cfg, rules, conns, p, who, ruling.mark);
    }
  }

  // ---------- packets from tracked ports ----------

  /** The packet is one that the rules decide unless its port is tracked. */
  predicate Judged(cfg: Config, rules: seq<Rule>, p: Packet) {
    && p.hasId && p.payloadLen >= IPHDR && !FastPath(cfg, rules)
    && match p.transport
       case Tcp(sport, _, syn, ack) => p.payloadLen >= p.ihl * 4 + TCPHDR && sport != cfg.relayPort && syn && !ack
       case Udp(sport, _) => p.payloadLen >= p.ihl * 4 + UDPHDR && sport != LOCAL_UDP_RELAY_PORT
       case Other => false
  }

  /** A packet from a tracked port is accepted unmarked and changes nothing, whatever its destination and
      the rules.  That is the ruling it would get from an untracked port exactly when the rules do not
      decide it or decide DIRECT. */
  lemma TrackedPortAgreesWithRulesIff(cfg: Config, rules: seq<Rule>, conns: Conns, p: Packet, who: Sender,
      now: uint64, room: bool)
    requires !p.transport.Other? && p.transport.sport in conns
    ensures RulingOn(cfg, rules, conns, p, who) == Accept && Remembered(conns, p, Accept, now, room) == conns
    ensures RulingOn(cfg, rules, conns - {p.transport.sport}, p, who) == Accept
            <==> (Judged(cfg, rules, p) ==> FlowAction(cfg, rules, p, who) == DIRECT)
  {
  }

  /** With one rule that blocks everything, a datagram from an unknown port is dropped, but one from a
      port tracked for another destination is accepted. */
  lemma BlockedDatagramFromTrackedPort(answers: Answers, now: uint64)
    ensures var cfg := Config(true, true, SOCKS5, "proxy", 1080, 1, 34010);
            var rules := [Rule(1, "*", "*", "*", BOTH, BLOCK, true)];
            var conns: Conns := map[5000 := Entry(0x0100_000A, 0x0808_0808, 53, true, now)];
            var p := Packet(true, 100, 5, 0x0100_000A, 0x0101_0101, Udp(5000, 443));
            var who := Sender(7, true, answers);
            RulingOn(cfg, rules, map[], p, who) == Drop && RulingOn(cfg, rules, conns, p, who) == Accept
  {
    var r := Rule(1, "*", "*", "*", BOTH, BLOCK, true);
    OneRule(r, TiersOf(Linux, answers, true, true));
    assert [r][0].enabled;
  }

  class Interceptor {
    const conns: ConnectionTable
    const rules: RuleList
    var cfg: Config

    ghost predicate Valid()
      reads this, conns, conns.table, conns.table.Repr, rules, rules.Repr
    {
      && conns.Valid() && rules.Valid()
      && conns.table.Repr !! rules.Repr && this !in conns.table.Repr && this !in rules.Repr && conns !in rules.Repr
    }

    constructor (cfg: Config)
      ensures Valid() && conns.table.m == map[] && rules.chain.items == [] && this.cfg == cfg
    {
      conns := new ConnectionTable();
      rules := new RuleList();
      this.cfg := cfg;
    }

    method Check(who: Sender, isUdp: bool) returns (action: RuleAction)
      requires Valid()
      ensures action == CheckProcessRule(Linux, cfg, rules.chain.items, who, isUdp)
    {
      if who.pid == 0 { return DIRECT; }
      if who.pid == cfg.ownPid { return DIRECT; }
      if !who.named { return DIRECT; }
      action := rules.MatchRule(Linux, who.answers, isUdp);
      if action == PROXY && isUdp && cfg.proxyType == HTTP { return DIRECT; }
      if action == PROXY && (cfg.proxyHost == "" || cfg.proxyPort == 0) { return DIRECT; }
    }

    /** `packet_callback`, with its rule lookup before its table update. */
    method PacketCallback(p: Packet, who: Sender, now: uint64, room: bool) returns (ruling: Ruling)
      requires Valid()
      modifies conns.table.Repr
      ensures Valid() && fresh(conns.table.Repr - old(conns.table.Repr))
      ensures ruling == RulingOn(cfg, rules.chain.items, old(conns.table.m), p, who)
      ensures conns.table.m == Remembered(old(conns.table.m), p, ruling, now, room)
      ensures cfg == old(cfg) && rules.chain.items == old(rules.chain.items)
    {
      if !p.hasId { return Accept; }
      if p.payloadLen < IPHDR { return Accept; }
      if !rules.hasActive && !cfg.callback { return Accept; }
      if p.transport.Tcp? {
        if p.payloadLen < p.ihl * 4 + TCPHDR { return Accept; }
        if p.transport.sport == cfg.relayPort { return Accept; }
        var tracked := conns.IsConnectionTracked(p.transport.sport);
        if tracked { return Accept; }
        if !(p.transport.syn && !p.transport.ack) { return Accept; }
        ruling := NewFlow(p, who, 1, now, room);
      } else if p.transport.Udp? {
        if p.payloadLen < p.ihl * 4 + UDPHDR { return Accept; }
        if p.transport.sport == LOCAL_UDP_RELAY_PORT { return Accept; }
        var tracked := conns.IsConnectionTracked(p.transport.sport);
        if tracked { return Accept; }
        ruling := NewFlow(p, who, 2, now, room);
      } else {
        return Accept;
      }
    }

    /** The rule lookup with its overrides to DIRECT. */
    method Decide(p: Packet, who: Sender) returns (action: RuleAction)
      requires Valid() && !p.transport.Other?
      ensures action == FlowAction(cfg, rules.chain.items, p, who)
    {
      var isUdp := p.transport.Udp?;
      action := DIRECT;
      if !(p.transport.dport == 53 && !cfg.dnsViaProxy) {
        action := Check(who, isUdp);
      }
      if action == PROXY && IsBroadcastOrMulticast(p.destIp) { action := DIRECT; }
      if isUdp {
        if action == PROXY && (p.transport.dport == 67 || p.transport.dport == 68) { action := DIRECT; }
        if action == PROXY && cfg.proxyType != SOCKS5 { action := DIRECT; }
      }
    }

    method NewFlow(p: Packet, who: Sender, mark: nat, now: uint64, room: bool) returns (ruling: Ruling)
      requires Valid() && !p.transport.Other?
      modifies conns.table.Repr
      ensures Valid() && fresh(conns.table.Repr - old(conns.table.Repr))
      ensures ruling == RulingFor(FlowAction(cfg, rules.chain.items, p, who), mark)
      ensures conns.table.m == Remembered(old(conns.table.m), p, ruling, now, room)
      ensures cfg == old(cfg) && rules.chain.items == old(rules.chain.items) && rules.Repr == old(rules.Repr)
    {
      var action := Decide(p, who);
      match action {
        case DIRECT => ruling := Accept;
        case BLOCK => ruling := Drop;
        case PROXY => ruling := Mark(p, mark, now, room);
      }
    }

    /** Stores the packet's flow and marks the packet for redirection. */
    method Mark(p: Packet, mark: nat, now: uint64, room: bool) returns (ruling: Ruling)
      requires Valid() && !p.transport.Other?
      modifies conns.table.Repr
      ensures Valid() && fresh(conns.table.Repr - old(conns.table.Repr))
      ensures ruling == AcceptMarked(mark)
      ensures conns.table.m == Remembered(old(conns.table.m), p, ruling, now, room)
      ensures cfg == old(cfg) && rules.chain.items == old(rules.chain.items) && rules.Repr == old(rules.Repr)
    {
      conns.AddConnection(p.transport.sport, p.srcIp, p.destIp, p.transport.dport, now, room);
      ruling := AcceptMarked(mark);
    }
  }

  // ---------- whole runs ----------

  /** One atomic step.  Settings, rules and the sender's identity may differ from packet to packet. */
  datatype Step =
    | Arrive(p: Packet, cfg: Config, rules: seq<Rule>, who: Sender, now: uint64, room: bool)
    | Lookup(port: uint16, now: uint64)
    | Sweep(now: uint64)

  function Next(m: Conns, s: Step): Conns {
    match s
    case Arrive(p, cfg, rules, who, now, room) => Remembered(m, p, RulingOn(cfg, rules, m, p, who), now, room)
    case Lookup(port, now) => if port in m then m[port := Touched(now, m[port])] else m
    case Sweep(now) => Swept(m, now)
  }

  function Run(steps: seq<Step>): Conns {
    if steps == [] then map[] else Next(Run(steps[..|steps| - 1]), steps[|steps| - 1])
  }

  /** Step `i` is a packet from `port` that was marked for redirection. */
  predicate Marks(steps: seq<Step>, i: nat, port: uint16)
    requires i < |steps|
  {
    && steps[i].Arrive? && !steps[i].p.transport.Other? && steps[i].p.transport.sport == port
    && RulingOn(steps[i].cfg, steps[i].rules, Run(steps[..i]), steps[i].p, steps[i].who).AcceptMarked?
  }

  /** `e` holds what packet `p` said. */
  predicate FromPacket(e: Entry, p: Packet) {
    !p.transport.Other? && e.tracked && e.srcIp == p.srcIp && e.destIp == p.destIp && e.destPort == p.transport.dport
  }

  /** Packet `i` created the entry that `port` has had ever since. */
  ghost predicate CreatedBy(steps: seq<Step>, port: uint16, i: nat) {
    && i < |steps| && Marks(steps, i, port) && port !in Run(steps[..i])
    && (forall j :: i < j <= |steps| ==> port in Run(steps[..j]) && FromPacket(Run(steps[..j])[port], steps[i].p))
  }

  /** A marked packet is from a port that is not in the table: the update branch of add never runs. */
  lemma MarkedPortIsNew(cfg: Config, rules: seq<Rule>, m: Conns, p: Packet, who: Sender)
    requires RulingOn(cfg, rules, m, p, who).AcceptMarked?
    ensures !p.transport.Other? && p.transport.sport !in m && !Unproxiable(p.destIp) && Foreign(cfg, who)
  {
    BroadcastTestMeans(p.destIp);
  }

  /** Whole-run soundness: every entry was created by one marked packet and has kept that packet's
      source and destination ever since; the destination is not loopback, link-local, multicast or
      x.x.x.255; the packet came from a known process other than the engine; and no later packet from the
      port was marked. */
  lemma {:induction false} EntriesComeFromOnePacket(steps: seq<Step>, port: uint16) returns (i: nat)
    requires port in Run(steps)
    ensures CreatedBy(steps, port, i)
    ensures FromPacket(Run(steps)[port], steps[i].p) && !Unproxiable(steps[i].p.destIp)
    ensures Foreign(steps[i].cfg, steps[i].who)
    ensures forall k :: i < k < |steps| ==> !Marks(steps, k, port)
    decreases |steps|
  {
    var n := |steps| - 1;
    var before, last := steps[..n], steps[n];
    assert steps[..|steps|] == steps;
    if port in Run(before) {
      i := EntriesComeFromOnePacket(before, port);
      forall j | 0 <= j <= n
        ensures before[..j] == steps[..j]
      {
      }
      if last.Arrive? && RulingOn(last.cfg, last.rules, Run(before), last.p, last.who).AcceptMarked? {
        MarkedPortIsNew(last.cfg, last.rules, Run(before), last.p, last.who);
      }
      assert before[..n] == before;
    } else {
      i := n;
      MarkedPortIsNew(last.cfg, last.rules, Run(before), last.p, last.who);
    }
  }

  /** What the relay is told when it looks `port` up. */
  function Answer(m: Conns, port: uint16): Option<(uint32, uint16)> {
    if port in m then Some((m[port].destIp, m[port].destPort)) else None
  }

  /** Every lookup that finds its port returns the original destination of the marked packet that
      created the entry, however many packets, lookups and sweeps lie in between. */
  lemma LookupReturnsOriginalDestination(steps: seq<Step>, k: nat) returns (i: nat)
    requires k < |steps| && steps[k].Lookup? && Answer(Run(steps[..k]), steps[k].port).Some?
    ensures i < k && Marks(steps, i, steps[k].port)
    ensures Answer(Run(steps[..k]), steps[k].port) == Some((steps[i].p.destIp, steps[i].p.transport.dport))
    ensures !Unproxiable(steps[i].p.destIp)
  {
    i := EntriesComeFromOnePacket(steps[..k], steps[k].port);
    assert steps[..k][..i] == steps[..i];
  }
}
