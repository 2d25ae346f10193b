/** Proxy credentials in Base64 (section 4 of RFC 4648), encoded in two ways, and decoded again. */
module Base64 {
  import opened Net

  /** The alphabet table, A-Z a-z 0-9 + /, by ranges. */
  function Symbol(b: bv6): char {
    var d := b as int;
    if d < 26 then ('A' as int + d) as char
    else if d < 52 then ('a' as int + d - 26) as char
    else if d < 62 then ('0' as int + d - 52) as char
    else if d == 62 then '+' else '/'
  }

  function Sextet(c: char): bv6 {
    if 'A' <= c <= 'Z' then (c as int - 'A' as int) as bv6
    else if 'a' <= c <= 'z' then (c as int - 'a' as int + 26) as bv6
    else if '0' <= c <= '9' then (c as int - '0' as int + 52) as bv6
    else if c == '+' then 62 else 63
  }

  lemma SextetOfSymbol(b: bv6)
    ensures Sextet(Symbol(b)) == b && Symbol(b) != '='
  {
  }

  /** The table of section 4 of RFC 4648. */
  const UPPER := "ABCDEFGHIJKLMNOPQRSTUVWXYZ"
  const LOWER := "abcdefghijklmnopqrstuvwxyz"
  const DIGITS := "0123456789"

  function Table(): string { UPPER + LOWER + DIGITS + "+/" }

  lemma AlphabetAt(i: nat)
    requires i < 26
    ensures |UPPER| == |LOWER| == 26 && |DIGITS| == 10
    ensures UPPER[i] as int == 'A' as int + i && LOWER[i] as int == 'a' as int + i
    ensures i < 10 ==> DIGITS[i] as int == '0' as int + i
  {
  }

  /** Each sextet is written as its entry in the table. */
  lemma SymbolsAreTheTable(b: bv6)
    ensures |Table()| == 64 && Symbol(b) == Table()[b as int]
  {
    var d := b as int;
    AlphabetAt(if d < 26 then d else if d < 52 then d - 26 else if d < 62 then d - 52 else 0);
  }

  /** The four sextets of a 24-bit group. */
  datatype Sextets = Sextets(s0: bv6, s1: bv6, s2: bv6, s3: bv6)

  /** As the Linux engine takes them out of one 24-bit word. */
  function FromWord(n: bv32): Sextets {
    Sextets(((n >> 18) & 0x3F) as bv6, ((n >> 12) & 0x3F) as bv6, ((n >> 6) & 0x3F) as bv6, (n & 0x3F) as bv6)
  }

  function Word(b1: bv8, b2: bv8, b3: bv8): bv32 {
    ((b1 as bv32) << 16) | ((b2 as bv32) << 8) | (b3 as bv32)
  }

  /** As the Windows engine takes them out of three bytes. */
  function FromBytes(b1: bv8, b2: bv8, b3: bv8): Sextets {
    Sextets((b1 >> 2) as bv6, (((b1 & 0x03) << 4) | (b2 >> 4)) as bv6,
            (((b2 & 0x0F) << 2) | (b3 >> 6)) as bv6, (b3 & 0x3F) as bv6)
  }

  lemma WordAndBytesAgree(b1: bv8, b2: bv8, b3: bv8)
    ensures FromWord(Word(b1, b2, b3)) == FromBytes(b1, b2, b3)
  {
  }

  /** Byte `i`, or zero past the end. */
  function ByteAt(raw: seq<bv8>, i: nat): bv8 { if i < |raw| then raw[i] else 0 }

  /** The four characters for the group that starts at byte `i`; '=' stands in for missing bytes. */
  function Quad(raw: seq<bv8>, i: nat): (q: string)
    requires i < |raw|
    ensures |q| == 4
  {
    var s := FromBytes(raw[i], ByteAt(raw, i + 1), ByteAt(raw, i + 2));
    [Symbol(s.s0), Symbol(s.s1),
     if i + 1 < |raw| then Symbol(s.s2) else '=',
     if i + 2 < |raw| then Symbol(s.s3) else '=']
  }

  function EncodeFrom(raw: seq<bv8>, i: nat): string
    decreases |raw| - i
  {
    if i >= |raw| then "" else Quad(raw, i) + EncodeFrom(raw, i + 3)
  }

  function Encode(raw: seq<bv8>): string { EncodeFrom(raw, 0) }

  function EncodedLength(n: nat): nat { 4 * ((n + 2) / 3) }

  lemma {:induction false} EncodeLength(raw: seq<bv8>, i: nat)
    ensures |EncodeFrom(raw, i)| == if i < |raw| then EncodedLength(|raw| - i) else 0
    decreases |raw| - i
  {
    if i < |raw| {
      EncodeLength(raw, i + 3);
    }
  }

  datatype Bytes = Bytes(b1: bv8, b2: bv8, b3: bv8)

  function Joined(s: Sextets): Bytes {
    Bytes(((s.s0 as bv8) << 2) | ((s.s1 as bv8) >> 4),
          ((s.s1 as bv8) << 4) | ((s.s2 as bv8) >> 2),
          ((s.s2 as bv8) << 6) | (s.s3 as bv8))
  }

  lemma GroupBits(b1: bv8, b2: bv8, b3: bv8)
    ensures Joined(FromBytes(b1, b2, b3)) == Bytes(b1, b2, b3)
  {
  }

  /** A padded place may spell any sextet: the bytes that are kept do not depend on it. */
  lemma PaddingIsIgnored(s: Sextets, t: Sextets)
    requires s.s0 == t.s0 && s.s1 == t.s1
    ensures Joined(s).b1 == Joined(t).b1
    ensures s.s2 == t.s2 ==> Joined(s).b2 == Joined(t).b2
    ensures s.s2 == t.s2 && s.s3 == t.s3 ==> Joined(s).b3 == Joined(t).b3
  {
  }

  /** The first one to three bytes of a 24-bit group. */
  function FirstBytes(b: Bytes, second: bool, third: bool): seq<bv8> {
    [b.b1] + (if second then [b.b2] else []) + (if third then [b.b3] else [])
  }

  /** What the first four characters of a text spell. */
  function SextetsOf(text: string): Sextets
    requires |text| >= 4
  {
    Sextets(Sextet(text[0]), Sextet(text[1]), Sextet(text[2]), Sextet(text[3]))
  }

  /** Decoding of padded text: one to three bytes for every four characters. */
  function Decode(text: string): seq<bv8>
    decreases |text|
  {
    if |text| < 4 then []
    else FirstBytes(Joined(SextetsOf(text)), text[2] != '=', text[3] != '=') + Decode(text[4..])
  }

  function Group(raw: seq<bv8>, i: nat): seq<bv8>
    requires i < |raw|
  {
    raw[i..Min(i + 3, |raw|)]
  }

  lemma QuadSpells(raw: seq<bv8>, i: nat)
    requires i < |raw|
    ensures var s, t := FromBytes(raw[i], ByteAt(raw, i + 1), ByteAt(raw, i + 2)), SextetsOf(Quad(raw, i));
            && s.s0 == t.s0 && s.s1 == t.s1 && (i + 1 < |raw| ==> s.s2 == t.s2) && (i + 2 < |raw| ==> s.s3 == t.s3)
    ensures (Quad(raw, i)[2] != '=' <==> i + 1 < |raw|) && (Quad(raw, i)[3] != '=' <==> i + 2 < |raw|)
  {
    var s := FromBytes(raw[i], ByteAt(raw, i + 1), ByteAt(raw, i + 2));
    SextetOfSymbol(s.s0);
    SextetOfSymbol(s.s1);
    SextetOfSymbol(s.s2);
    SextetOfSymbol(s.s3);
  }

  lemma GroupIs(raw: seq<bv8>, i: nat)
    requires i < |raw|
    ensures Group(raw, i)
            == FirstBytes(Bytes(raw[i], ByteAt(raw, i + 1), ByteAt(raw, i + 2)), i + 1 < |raw|, i + 2 < |raw|)
  {
    if i + 2 < |raw| {
      assert Group(raw, i) == [raw[i], raw[i + 1], raw[i + 2]];
    } else if i + 1 < |raw| {
      assert Group(raw, i) == [raw[i], raw[i + 1]];
    }
  }

  lemma DecodeQuad(raw: seq<bv8>, i: nat, rest: string)
    requires i < |raw|
    ensures Decode(Quad(raw, i) + rest) == Group(raw, i) + Decode(rest)
  {
    var b1, b2, b3 := raw[i], ByteAt(raw, i + 1), ByteAt(raw, i + 2);
    var quad := Quad(raw, i);
    var text := quad + rest;
    assert text[4..] == rest && text[0] == quad[0] && text[1] == quad[1] && text[2] == quad[2] && text[3] == quad[3];
    QuadSpells(raw, i);
    PaddingIsIgnored(SextetsOf(quad), FromBytes(b1, b2, b3));
    GroupBits(b1, b2, b3);
    GroupIs(raw, i);
    assert FirstBytes(Joined(SextetsOf(quad)), i + 1 < |raw|, i + 2 < |raw|) == Group(raw, i);
    assert SextetsOf(text) == SextetsOf(quad);
    assert Decode(text) == FirstBytes(Joined(SextetsOf(text)), text[2] != '=', text[3] != '=') + Decode(text[4..]);
  }

  lemma {:induction false} DecodeFrom(raw: seq<bv8>, i: nat)
    requires i <= |raw|
    ensures Decode(EncodeFrom(raw, i)) == raw[i..]
    decreases |raw| - i
  {
    if i < |raw| {
      DecodeQuad(raw, i, EncodeFrom(raw, i + 3));
      if i + 3 <= |raw| {
        DecodeFrom(raw, i + 3);
        assert raw[i..] == Group(raw, i) + raw[i + 3..];
      }
    }
  }

  /** Decoding recovers the input, whatever its length and bytes. */
  lemma DecodeRecovers(raw: seq<bv8>)
    ensures Decode(Encode(raw)) == raw
  {
    DecodeFrom(raw, 0);
    assert raw[0..] == raw;
  }

  method PutFour(buf: array<char>, j: nat, c0: char, c1: char, c2: char, c3: char)
    requires j + 4 <= buf.Length
    modifies buf
    ensures buf[..j + 4] == old(buf[..j]) + [c0, c1, c2, c3]
  {
    ghost var front := buf[..j];
    buf[j], buf[j + 1], buf[j + 2], buf[j + 3] := c0, c1, c2, c3;
    ghost var now := buf[..j + 4];
    assert |now| == |front + [c0, c1, c2, c3]|;
    forall k | 0 <= k < j
      ensures now[k] == front[k]
    {
    }
    assert now[j] == c0 && now[j + 1] == c1 && now[j + 2] == c2 && now[j + 3] == c3;
  }

  /** The examples of section 10 of RFC 4648 for "f", "fo" and "foo". */
  lemma Examples()
    ensures Encode([0x66]) == "Zg==" && Encode([0x66, 0x6F]) == "Zm8=" && Encode([0x66, 0x6F, 0x6F]) == "Zm9v"
  {
  }

  /** Writes the four characters of one group behind the first `j` of the buffer. */
  method Store(buf: array<char>, j: nat, c0: char, c1: char, c2: char, c3: char, ghost raw: seq<bv8>, ghost i: nat)
    requires j + 4 <= buf.Length && i < |raw| && [c0, c1, c2, c3] == Quad(raw, i)
    modifies buf
    ensures buf[..j + 4] + EncodeFrom(raw, i + 3) == old(buf[..j]) + EncodeFrom(raw, i)
  {
    PutFour(buf, j, c0, c1, c2, c3);
    assert old(buf[..j]) + Quad(raw, i) + EncodeFrom(raw, i + 3)
        == old(buf[..j]) + (Quad(raw, i) + EncodeFrom(raw, i + 3));
  }

  method ReadWord(raw: seq<bv8>, i: nat) returns (n: bv32)
    requires i < |raw|
    ensures n == Word(raw[i], ByteAt(raw, i + 1), ByteAt(raw, i + 2))
  {
    n := (raw[i] as bv32) << 16;
    if i + 1 < |raw| { n := n | ((raw[i + 1] as bv32) << 8); }
    if i + 2 < |raw| { n := n | (raw[i + 2] as bv32); }
  }

  /** The Linux encoder: one 24-bit word per group, written into a caller's buffer. */
  method EncodeByWords(raw: seq<bv8>, buf: array<char>) returns (j: nat)
    requires EncodedLength(|raw|) < buf.Length
    modifies buf
    ensures j < buf.Length && buf[..j] == Encode(raw) && buf[j] == '\0'
  {
    j := 0;
    var i := 0;
    EncodeLength(raw, 0);
    while i < |raw|
      invariant i <= |raw| + 2 && j <= buf.Length && j + |EncodeFrom(raw, i)| == |Encode(raw)|
      invariant buf[..j] + EncodeFrom(raw, i) == Encode(raw)
      decreases |raw| - i
    {
      var n := ReadWord(raw, i);
      WordAndBytesAgree(raw[i], ByteAt(raw, i + 1), ByteAt(raw, i + 2));
      var s := FromWord(n);
      Store(buf, j, Symbol(s.s0), Symbol(s.s1),
            if i + 1 < |raw| then Symbol(s.s2) else '=',
            if i + 2 < |raw| then Symbol(s.s3) else '=',
            raw, i);
      i, j := i + 3, j + 4;
    }
    buf[j] := '\0';
  }

  /** The Windows encoder: byte by byte, and it stops early when the buffer runs out. */
  method EncodeByBytes(raw: seq<bv8>, buf: array<char>) returns (len: nat)
    requires buf.Length >= 4
    modifies buf
    ensures len < buf.Length && buf[..len] <= Encode(raw) && buf[len] == '\0'
    ensures buf[..len] == Encode(raw) <==> |Encode(raw)| < buf.Length
  {
    len := 0;
    var i := 0;
    EncodeLength(raw, 0);
    while i < |raw| && len < buf.Length - 4
      invariant i <= |raw| + 2 && len <= buf.Length - 1 && len + |EncodeFrom(raw, i)| == |Encode(raw)|
      invariant buf[..len] + EncodeFrom(raw, i) == Encode(raw)
      decreases |raw| - i
    {
      var b1 := raw[i];
      var b2 := if i + 1 < |raw| then raw[i + 1] else 0;
      var b3 := if i + 2 < |raw| then raw[i + 2] else 0;
      Store(buf, len, Symbol((b1 >> 2) as bv6), Symbol((((b1 & 0x03) << 4) | (b2 >> 4)) as bv6),
            if i + 1 < |raw| then Symbol((((b2 & 0x0F) << 2) | (b3 >> 6)) as bv6) else '=',
            if i + 2 < |raw| then Symbol((b3 & 0x3F) as bv6) else '=',
            raw, i);
      i, len := i + 3, len + 4;
    }
    buf[len] := '\0';
    EncodeLength(raw, i);
  }
}
