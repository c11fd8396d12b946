/** The seed hash: a reflected 64-bit cyclic redundancy check over the bytes of a seed. */
module SeedHash {
  import opened Common
  import opened Arithmetic

  const WORD := 0x1_0000_0000_0000_0000
  const HALF_WORD := 0x8000_0000_0000_0000
  const POLYNOMIAL := 0xc96c_5795_d787_0f42
  const LEGACY: seq<Byte> := [108, 101, 103, 97, 99, 121, 45]

  function CrcBit(crc: nat): nat {
    BitXor(crc / 2, if crc % 2 != 0 then POLYNOMIAL else 0)
  }

  function CrcBits(crc: nat, count: nat): nat {
    if count == 0 then crc else CrcBit(CrcBits(crc, count - 1))
  }

  function CrcByte(crc: nat, byte: Byte): nat {
    CrcBits(BitXor(crc, byte), 8)
  }

  function Crc(crc: nat, bytes: seq<Byte>): nat {
    if bytes == [] then crc else CrcByte(Crc(crc, bytes[..|bytes| - 1]), bytes[|bytes| - 1])
  }

  /** The bytes of a seed that are hashed, unless a legacy seed is too short to have any. */
  function HashedBytes(seed: seq<Byte>): Option<seq<Byte>> {
    if LEGACY <= seed then
      if |seed| >= 9 then Some(seed[9..]) else None
    else
      Some(seed)
  }

  /** The complement of the register after the hashed bytes, read as a signed 64-bit integer. */
  function Hash(bytes: seq<Byte>): int {
    var complement := WORD - 1 - Crc(WORD - 1, bytes);
    if complement < HALF_WORD then complement else complement - WORD
  }

  function HashOf(seed: seq<Byte>): Option<int> {
    match HashedBytes(seed)
    case None => None
    case Some(bytes) => Some(Hash(bytes))
  }

  method SeedHash(seed: seq<Byte>) returns (hash: Option<int>)
    ensures hash == HashOf(seed)
    ensures hash.None? <==> LEGACY <= seed && |seed| < 9
  {
    var bytes := seed;
    if LEGACY <= seed {
      if |seed| < 9 {
        return None;
      }
      bytes := seed[9..];
    }
    var crc: nat := WORD - 1;
    for i := 0 to |bytes|
      invariant crc == Crc(WORD - 1, bytes[..i])
    {
      var mixed := BitXor(crc, bytes[i]);
      crc := mixed;
      for bit := 0 to 8
        invariant crc == CrcBits(mixed, bit)
      {
        crc := BitXor(crc / 2, if crc % 2 != 0 then POLYNOMIAL else 0);
      }
      assert bytes[..i + 1][..i] == bytes[..i];
    }
    assert bytes[..|bytes|] == bytes;
    var complement := WORD - 1 - crc;
    hash := Some(if complement < HALF_WORD then complement else complement - WORD);
  }

  lemma CrcBitInjective(c: nat, d: nat)
    requires c < WORD && d < WORD && CrcBit(c) == CrcBit(d)
    ensures c == d
  {
    Pow2Values();
    CrcBitShowsParity(c);
    CrcBitShowsParity(d);
    var mask := if c % 2 != 0 then POLYNOMIAL else 0;
    XorCancels(c / 2, mask);
    XorCancels(d / 2, mask);
  }

  /** The polynomial has the top bit set, so the top bit of a step tells which bit was shifted out. */
  lemma CrcBitShowsParity(c: nat)
    requires c < WORD
    ensures CrcBit(c) < WORD
    ensures (c % 2 != 0) <==> CrcBit(c) >= HALF_WORD
  {
    Pow2Values();
    if c % 2 != 0 {
      XorKeepsTopBit(c / 2, POLYNOMIAL, 63);
      XorBelow(c / 2, POLYNOMIAL, 64);
    } else {
      XorBelow(c / 2, 0, 63);
    }
  }

  lemma {:induction false} CrcBitsBelow(c: nat, count: nat)
    requires c < WORD
    ensures CrcBits(c, count) < WORD
  {
    if count > 0 {
      CrcBitsBelow(c, count - 1);
      CrcBitShowsParity(CrcBits(c, count - 1));
    }
  }

  lemma {:induction false} CrcBitsInjective(c: nat, d: nat, count: nat)
    requires c < WORD && d < WORD && CrcBits(c, count) == CrcBits(d, count)
    ensures c == d
  {
    if count > 0 {
      var c', d' := CrcBits(c, count - 1), CrcBits(d, count - 1);
      CrcBitsBelow(c, count - 1);
      CrcBitsBelow(d, count - 1);
      CrcBitInjective(c', d');
      CrcBitsInjective(c, d, count - 1);
    }
  }

  /** One more byte maps different registers to different registers, and different bytes too. */
  lemma CrcByteInjective(c: nat, d: nat, x: Byte, y: Byte)
    requires c < WORD && d < WORD && CrcByte(c, x) == CrcByte(d, y)
    ensures x == y ==> c == d
    ensures c == d ==> x == y
  {
    Pow2Values();
    XorBelow(c, x, 64);
    XorBelow(d, y, 64);
    CrcBitsInjective(BitXor(c, x), BitXor(d, y), 8);
    XorCancels(c, x);
    XorCancels(d, y);
    XorCommutes(c, x);
    XorCommutes(d, y);
    XorCancels(x, c);
    XorCancels(y, d);
  }

  lemma CrcByteBelow(c: nat, x: Byte)
    requires c < WORD
    ensures CrcByte(c, x) < WORD
  {
    Pow2Values();
    XorBelow(c, x, 64);
    CrcBitsBelow(BitXor(c, x), 8);
  }

  lemma {:induction false} CrcBelow(c: nat, bytes: seq<Byte>)
    requires c < WORD
    ensures Crc(c, bytes) < WORD
  {
    if bytes != [] {
      CrcBelow(c, bytes[..|bytes| - 1]);
      CrcByteBelow(Crc(c, bytes[..|bytes| - 1]), bytes[|bytes| - 1]);
    }
  }

  lemma {:induction false} CrcInjective(c: nat, d: nat, bytes: seq<Byte>)
    requires c < WORD && d < WORD && Crc(c, bytes) == Crc(d, bytes)
    ensures c == d
  {
    if bytes != [] {
      var front, last := bytes[..|bytes| - 1], bytes[|bytes| - 1];
      CrcBelow(c, front);
      CrcBelow(d, front);
      CrcByteInjective(Crc(c, front), Crc(d, front), last, last);
      CrcInjective(c, d, front);
    }
  }

  lemma {:induction false} CrcConcat(c: nat, a: seq<Byte>, b: seq<Byte>)
    ensures Crc(c, a + b) == Crc(Crc(c, a), b)
  {
    if b == [] {
      assert a + b == a;
    } else {
      var front := b[..|b| - 1];
      assert (a + b)[..|a + b| - 1] == a + front;
      CrcConcat(c, a, front);
    }
  }

  /** Hashed parts that differ in a single byte never share a hash. */
  lemma PartsDifferingInOneByte(front: seq<Byte>, x: Byte, y: Byte, back: seq<Byte>)
    requires x != y
    ensures Hash(front + [x] + back) != Hash(front + [y] + back)
  {
    var start: nat := WORD - 1;
    var c := Crc(start, front);
    CrcBelow(start, front);
    CrcBelow(start, front + [x] + back);
    CrcBelow(start, front + [y] + back);
    CrcConcat(start, front + [x], back);
    CrcConcat(start, front + [y], back);
    assert (front + [x])[..|front|] == front && (front + [y])[..|front|] == front;
    CrcByteBelow(c, x);
    CrcByteBelow(c, y);
    if Crc(CrcByte(c, x), back) == Crc(CrcByte(c, y), back) {
      CrcInjective(CrcByte(c, x), CrcByte(c, y), back);
      CrcByteInjective(c, c, x, y);
    }
  }

  /**
   Two seeds that differ in a single byte share their hash exactly when that byte is one of the first
   nine of two legacy seeds, which are dropped before hashing.
   */
  lemma SeedsDifferingInOneByte(seed: seq<Byte>, i: nat, y: Byte)
    requires i < |seed| && y != seed[i]
    requires HashOf(seed).Some? && HashOf(seed[i := y]).Some?
    requires LEGACY <= seed <==> LEGACY <= seed[i := y]
    ensures HashOf(seed) == HashOf(seed[i := y]) <==> LEGACY <= seed && i < 9
  {
    var other := seed[i := y];
    var dropped := if LEGACY <= seed then 9 else 0;
    var part, changed := seed[dropped..], other[dropped..];
    if i < dropped {
      assert part == changed;
    } else {
      var k := i - dropped;
      PartsDifferingInOneByte(part[..k], seed[i], y, part[k + 1..]);
      assert part == part[..k] + [seed[i]] + part[k + 1..];
      assert changed == part[..k] + [y] + part[k + 1..];
    }
  }

  /** Two legacy seeds that differ in the byte after their prefix collide. */
  lemma LegacySeedsCollide()
    ensures HashOf(LEGACY + [48, 45, 97]) == HashOf(LEGACY + [49, 45, 97])
  {
    var seed := LEGACY + [48, 45, 97];
    assert LEGACY + [49, 45, 97] == seed[7 := 49];
    SeedsDifferingInOneByte(seed, 7, 49);
  }
}
