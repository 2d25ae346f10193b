/** Machine words and the few enumerations that every component shares. */
module Net {
  type byte = x: int | 0 <= x < 0x100
  type uint16 = x: int | 0 <= x < 0x1_0000
  type uint32 = x: int | 0 <= x < 0x1_0000_0000
  type uint64 = x: int | 0 <= x < TWO_TO_THE_64

  const TWO_TO_THE_64 := 0x1_0000_0000_0000_0000

  // ProxyBridge.h numbers these 0, 1, 2 in this order
  datatype RuleProtocol = TCP | UDP | BOTH
  datatype RuleAction = PROXY | DIRECT | BLOCK
  datatype ProxyType = HTTP | SOCKS5

  datatype Option<+T> = None | Some(value: T)

  /** Unsigned 64-bit `now - stamp`, which wraps when the stamp lies in the future. */
  function Elapsed(now: uint64, stamp: uint64): (r: uint64) {
    (now - stamp) % TWO_TO_THE_64
  }

  /** Octet `k` of an address held with its first octet in the low byte: `(ip >> 8*k) & 0xFF`. */
  function Octet(ip: uint32, k: nat): (r: byte)
    requires k < 4
  {
    match k
    case 0 => ip % 0x100
    case 1 => ip / 0x100 % 0x100
    case 2 => ip / 0x1_0000 % 0x100
    case _ => ip / 0x100_0000 % 0x100
  }

  /** The address with these octets, the first in the low byte. */
  function IpOf(a: byte, b: byte, c: byte, d: byte): uint32 { a + b * 0x100 + c * 0x1_0000 + d * 0x100_0000 }

  lemma DivideTwice(x: nat)
    ensures x / 0x1_0000 == x / 0x100 / 0x100
  {
    var q, r := x / 0x100, x % 0x100;
    assert x == (q / 0x100) * 0x1_0000 + (q % 0x100 * 0x100 + r) && 0 <= q % 0x100 * 0x100 + r < 0x1_0000;
  }

  lemma IpOfOctets(ip: uint32)
    ensures IpOf(Octet(ip, 0), Octet(ip, 1), Octet(ip, 2), Octet(ip, 3)) == ip
  {
    var q1: nat := ip / 0x100;
    var q2: nat := q1 / 0x100;
    DivideTwice(ip);
    DivideTwice(q1);
    assert ip / 0x100_0000 == q2 / 0x100 by {
      assert ip == q2 * 0x1_0000 + (q1 % 0x100 * 0x100 + ip % 0x100);
    }
  }

  lemma OctetsOfIp(a: byte, b: byte, c: byte, d: byte)
    ensures var ip := IpOf(a, b, c, d); Octet(ip, 0) == a && Octet(ip, 1) == b && Octet(ip, 2) == c && Octet(ip, 3) == d
  {
    var ip := IpOf(a, b, c, d);
    var q3: int := d;
    var q2 := q3 * 0x100 + c;
    var q1 := q2 * 0x100 + b;
    assert ip == q1 * 0x100 + a && ip / 0x100 == q1;
    assert ip / 0x1_0000 == q2 by {
      assert ip == q2 * 0x1_0000 + (b as int * 0x100 + a) && 0 <= b as int * 0x100 + a < 0x1_0000;
    }
    assert ip / 0x100_0000 == q3 by {
      assert ip == q3 * 0x100_0000 + (c as int * 0x1_0000 + b as int * 0x100 + a);
    }
  }

  function Min(a: int, b: int): (r: int) { if a <= b then a else b }
}
