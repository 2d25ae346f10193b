/** Address ranges "a.b.c.d-e.f.g.h": byte-swapped words on Windows, a shift-and-or fold on macOS. */
module Ipv4Range {
  import opened Net

  datatype Octets = Octets(o1: bv8, o2: bv8, o3: bv8, o4: bv8)

  /** The first octet in the low byte. */
  function LittleEndian(o: Octets): bv32 {
    (o.o1 as bv32) | ((o.o2 as bv32) << 8) | ((o.o3 as bv32) << 16) | ((o.o4 as bv32) << 24)
  }

  /** The byte swap: each octet is masked out and moved to the opposite end. */
  function Swapped(ip: bv32): bv32 {
    ((ip & 0xFF) << 24) | ((ip & 0xFF00) << 8) | ((ip & 0xFF_0000) >> 8) | ((ip & 0xFF00_0000) >> 24)
  }

  predicate AtMost(w: bv32, v: bv32) { w <= v }

  predicate Within(ip: bv32, start: bv32, end: bv32) { AtMost(start, ip) && AtMost(ip, end) }

  predicate WindowsInRange(ip: bv32, start: Octets, end: Octets) {
    Within(Swapped(ip), Swapped(LittleEndian(start)), Swapped(LittleEndian(end)))
  }

  /** One turn of the macOS loop. */
  function Shifted(result: bv32, value: bv8): bv32 { (result << 8) | (value as bv32) }

  function Fold(o: Octets): bv32 { Shifted(Shifted(Shifted(Shifted(0, o.o1), o.o2), o.o3), o.o4) }

  predicate MacInRange(target: Octets, start: Octets, end: Octets) {
    Within(Fold(target), Fold(start), Fold(end))
  }

  /** Dictionary order on the four octets. */
  predicate LexAtMost(a: Octets, b: Octets) {
    || a.o1 < b.o1
    || (a.o1 == b.o1 && (a.o2 < b.o2
                         || (a.o2 == b.o2 && (a.o3 < b.o3
                                              || (a.o3 == b.o3 && a.o4 <= b.o4)))))
  }

  /** Swapping the bytes of the little-endian word gives the word that the fold builds. */
  lemma SwappedIsFold(o: Octets)
    ensures Swapped(LittleEndian(o)) == Fold(o)
  {
  }

  /** The two orders agree on these addresses. */
  predicate OrdersAgree(a: Octets, b: Octets) { AtMost(Fold(a), Fold(b)) == LexAtMost(a, b) }

  /** -1, 0 or 1 as `x` is below, equal to or above `y`. */
  function Compare(x: bv8, y: bv8): int { if x < y then -1 else if x == y then 0 else 1 }

  lemma CompareFlips(x: bv8, y: bv8)
    ensures Compare(x, y) == -Compare(y, x)
  {
  }

  // The first octet in which two addresses differ decides the order of their words.
  lemma FirstBelow(a: Octets, b: Octets)
    requires a.o1 < b.o1
    ensures Fold(a) < Fold(b)
  {
  }

  lemma SecondBelow(a: Octets, b: Octets)
    requires a.o1 == b.o1 && a.o2 < b.o2
    ensures Fold(a) < Fold(b)
  {
  }

  lemma ThirdBelow(a: Octets, b: Octets)
    requires a.o1 == b.o1 && a.o2 == b.o2 && a.o3 < b.o3
    ensures Fold(a) < Fold(b)
  {
  }

  lemma FourthBelow(a: Octets, b: Octets)
    requires a.o1 == b.o1 && a.o2 == b.o2 && a.o3 == b.o3 && a.o4 < b.o4
    ensures Fold(a) < Fold(b)
  {
  }

  lemma FirstDecides(a: Octets, b: Octets)
    requires Compare(a.o1, b.o1) != 0
    ensures OrdersAgree(a, b)
  {
    CompareFlips(a.o1, b.o1);
    if Compare(a.o1, b.o1) == -1 { FirstBelow(a, b); } else { FirstBelow(b, a); }
  }

  lemma SecondDecides(a: Octets, b: Octets)
    requires a.o1 == b.o1 && Compare(a.o2, b.o2) != 0
    ensures OrdersAgree(a, b)
  {
    CompareFlips(a.o2, b.o2);
    if Compare(a.o2, b.o2) == -1 { SecondBelow(a, b); } else { SecondBelow(b, a); }
  }

  lemma ThirdDecides(a: Octets, b: Octets)
    requires a.o1 == b.o1 && a.o2 == b.o2 && Compare(a.o3, b.o3) != 0
    ensures OrdersAgree(a, b)
  {
    CompareFlips(a.o3, b.o3);
    if Compare(a.o3, b.o3) == -1 { ThirdBelow(a, b); } else { ThirdBelow(b, a); }
  }

  lemma FourthDecides(a: Octets, b: Octets)
    requires a.o1 == b.o1 && a.o2 == b.o2 && a.o3 == b.o3 && Compare(a.o4, b.o4) != 0
    ensures OrdersAgree(a, b)
  {
    CompareFlips(a.o4, b.o4);
    if Compare(a.o4, b.o4) == -1 { FourthBelow(a, b); } else { FourthBelow(b, a); }
  }

  lemma EqualAgree(a: Octets)
    ensures OrdersAgree(a, a)
  {
  }

  /** The order of the folded words is the dictionary order of the octets. */
  lemma FoldOrder(a: Octets, b: Octets)
    ensures OrdersAgree(a, b)
  {
    if Compare(a.o1, b.o1) != 0 {
      FirstDecides(a, b);
    } else if Compare(a.o2, b.o2) != 0 {
      SecondDecides(a, b);
    } else if Compare(a.o3, b.o3) != 0 {
      ThirdDecides(a, b);
    } else if Compare(a.o4, b.o4) != 0 {
      FourthDecides(a, b);
    } else {
      assert a == b;
      EqualAgree(a);
    }
  }

  lemma WindowsIsMac(target: Octets, start: Octets, end: Octets)
    ensures WindowsInRange(LittleEndian(target), start, end) <==> MacInRange(target, start, end)
  {
    SwappedIsFold(target);
    SwappedIsFold(start);
    SwappedIsFold(end);
  }

  lemma MacIsLexical(target: Octets, start: Octets, end: Octets)
    ensures MacInRange(target, start, end) <==> LexAtMost(start, target) && LexAtMost(target, end)
  {
    FoldOrder(start, target);
    FoldOrder(target, end);
  }

  /** Both engines accept an address exactly when it lies between the bounds in dictionary order. */
  lemma RangesAgree(target: Octets, start: Octets, end: Octets)
    ensures WindowsInRange(LittleEndian(target), start, end) <==> LexAtMost(start, target) && LexAtMost(target, end)
    ensures MacInRange(target, start, end) <==> LexAtMost(start, target) && LexAtMost(target, end)
  {
    WindowsIsMac(target, start, end);
    MacIsLexical(target, start, end);
  }

  function FoldFirst(components: seq<Option<bv8>>, n: nat): bv32
    requires n <= |components| && forall j :: 0 <= j < n ==> components[j].Some?
  {
    if n == 0 then 0 else Shifted(FoldFirst(components, n - 1), components[n - 1].value)
  }

  /** The loop's value is the fold of the four octets, in the order they were written. */
  lemma FoldFirstFour(c: seq<Option<bv8>>)
    requires |c| == 4 && forall j :: 0 <= j < 4 ==> c[j].Some?
    ensures FoldFirst(c, 4) == Fold(Octets(c[0].value, c[1].value, c[2].value, c[3].value))
  {
    assert FoldFirst(c, 0) == 0;
    assert FoldFirst(c, 1) == Shifted(0, c[0].value);
    assert FoldFirst(c, 2) == Shifted(Shifted(0, c[0].value), c[1].value);
    assert FoldFirst(c, 3) == Shifted(Shifted(Shifted(0, c[0].value), c[1].value), c[2].value);
  }

  /** The macOS fold over parsed components; a component that is no octet, or a count other than four,
      gives no address. */
  method IpToInteger(components: seq<Option<bv8>>) returns (r: Option<bv32>)
    ensures r == if |components| == 4 && (forall j :: 0 <= j < 4 ==> components[j].Some?)
                 then Some(FoldFirst(components, 4)) else None
  {
    if |components| != 4 {
      return None;
    }
    var result: bv32 := 0;
    for i := 0 to 4
      invariant forall j :: 0 <= j < i ==> components[j].Some?
      invariant result == FoldFirst(components, i)
    {
      if components[i].None? {
        return None;
      }
      result := Shifted(result, components[i].value);
    }
    r := Some(result);
  }
}
