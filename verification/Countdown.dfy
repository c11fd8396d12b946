/**
 The hexadecimal form of a countdown length. Its digits and exponent stand for an exact dyadic
 number, which is rounded once to a double-precision number.
 */
module Countdown {
  import opened Arithmetic

  /** A message cannot carry more characters than this, so neither can a number inside it. */
  const MAX_MESSAGE_BYTES := 4 * 1024 * 1024
  const MIN_INT64 := -0x8000_0000_0000_0000
  const MAX_INT64 := 0x7fff_ffff_ffff_ffff

  /** What was read: nothing, or `significand * 2^exponent`. */
  datatype Reading = Rejected | Scaled(significand: nat, exponent: int)

  // ---------------------------------------------------------------------------------------------
  // Rounding an exact number `m * 2^e`.

  function BitLength(m: nat): (size: nat)
    ensures m > 0 ==> size > 0
  {
    if m == 0 then 0 else 1 + BitLength(m / 2)
  }

  lemma {:induction false} BitLengthBounds(m: nat)
    requires m > 0
    ensures Pow2(BitLength(m) - 1) <= m < Pow2(BitLength(m))
  {
    if m > 1 {
      BitLengthBounds(m / 2);
    }
  }

  /** The multiple of `d` nearest to `m`, in units of `d`; the even one of two that are as near. */
  function RoundHalfEven(m: nat, d: nat): nat
    requires d > 0
  {
    var q, r := m / d, m % d;
    if 2 * r > d || (2 * r == d && q % 2 == 1) then q + 1 else q
  }

  function Max(a: int, b: int): int {
    if a >= b then a else b
  }

  /** How many low bits a number of the given size and exponent loses. */
  function Shift(size: nat, exponent: int): nat {
    Max(Max(0, size - 53), -1074 - exponent)
  }

  /** Whether `significand * 2^exponent` is at least 2^1024. */
  predicate Overflows(significand: nat, exponent: int) {
    exponent > 1024 || significand >= Pow2(1024 - exponent)
  }

  function Rounded(m: nat, exponent: int): Reading {
    var size := BitLength(m);
    if m == 0 || exponent + size < -1074 then Scaled(0, 0)
    else if exponent + size > 1024 then Rejected
    else
      var shift := Shift(size, exponent);
      var significand := RoundHalfEven(m, Pow2(shift));
      if Overflows(significand, exponent + shift) then Rejected else Scaled(significand, exponent + shift)
  }

  // ---------------------------------------------------------------------------------------------
  // Reading the digits.

  type Digit = d: int | 0 <= d < 16
  type Bit = b: int | 0 <= b < 2

  function Numeral(digits: seq<Digit>): nat {
    if digits == [] then 0 else 16 * Numeral(digits[..|digits| - 1]) + digits[|digits| - 1]
  }

  function Binary(bits: seq<Bit>): nat {
    if bits == [] then 0 else 2 * Binary(bits[..|bits| - 1]) + bits[|bits| - 1]
  }

  function Clamp(value: int): int {
    if value < MIN_INT64 then MIN_INT64 else if value > MAX_INT64 then MAX_INT64 else value
  }

  /**
   Reads hexadecimal digits, `fraction` of them after the point, scaled by a power of two. The
   power is the exact one that was written, however long.
   */
  method ReadHex(digits: seq<Digit>, fraction: nat, power: int) returns (reading: Reading)
    requires fraction <= |digits| <= MAX_MESSAGE_BYTES
    ensures reading == Rounded(Numeral(digits), power - 4 * fraction)
  {
    var exponent := Clamp(Clamp(power) - Clamp(4 * fraction));
    var bits := Bits(digits);
    var first := FirstOne(bits);
    bits := bits[first..];
    if bits == [] {
      EmptyBinary();
      return Scaled(0, 0);
    }
    SizeOf(bits);
    SaturationIsHarmless(bits, power, fraction);
    reading := RoundBits(bits, exponent);
  }

  /** An exponent that saturates is far beyond both limits, however many digits there are. */
  lemma SaturationIsHarmless(bits: seq<Bit>, power: int, fraction: nat)
    requires fraction <= MAX_MESSAGE_BYTES && |bits| <= 4 * MAX_MESSAGE_BYTES
    requires BitLength(Binary(bits)) == |bits|
    ensures Rounded(Binary(bits), Clamp(Clamp(power) - Clamp(4 * fraction)))
            == Rounded(Binary(bits), power - 4 * fraction)
  {
    hide Binary, BitLength, RoundHalfEven, Overflows;
  }

  method RoundBits(bits: seq<Bit>, exponent: int) returns (reading: Reading)
    requires bits != [] && bits[0] == 1 && |bits| <= 4 * MAX_MESSAGE_BYTES
    requires Clamp(exponent) == exponent
    ensures reading == Rounded(Binary(bits), exponent)
  {
    hide Binary, RoundHalfEven, Overflows;
    SizeOf(bits);
    var size := |bits|;
    if Clamp(exponent + size) < -1074 {
      return Scaled(0, 0);
    }
    if Clamp(exponent + size) > 1024 {
      return Rejected;
    }
    var shift := Max(Max(0, size - 53), -1074 - exponent);
    var kept := Max(size - shift, 0);
    var rounded := Truncate(bits, kept);
    GuardAndSticky(bits, kept);
    hide Pow2;
    if kept < size && bits[kept] == 1 && (1 in bits[kept + 1..] || rounded % 2 != 0) {
      rounded := rounded + 1;
    }
    reading := if Overflows(rounded, exponent + shift) then Rejected else Scaled(rounded, exponent + shift);
  }

  method Truncate(bits: seq<Bit>, kept: nat) returns (value: nat)
    requires kept <= |bits|
    ensures value == Binary(bits[..kept])
  {
    value := 0;
    for i := 0 to kept
      invariant value == Binary(bits[..i])
    {
      assert bits[..i + 1][..i] == bits[..i];
      value := value * 2 + bits[i];
    }
  }

  /** The bits of the digits, four each, most significant first. */
  method Bits(digits: seq<Digit>) returns (bits: seq<Bit>)
    ensures |bits| == 4 * |digits| && Binary(bits) == Numeral(digits)
  {
    bits := [];
    for i := 0 to |digits|
      invariant |bits| == 4 * i && Binary(bits) == Numeral(digits[..i])
    {
      var d := digits[i];
      FourBits(bits, d);
      assert digits[..i + 1][..i] == digits[..i];
      bits := bits + [d / 8] + [d / 4 % 2] + [d / 2 % 2] + [d % 2];
    }
    assert digits[..|digits|] == digits;
  }

  lemma AppendBit(bits: seq<Bit>, bit: Bit)
    ensures Binary(bits + [bit]) == 2 * Binary(bits) + bit
  {
    assert (bits + [bit])[..|bits|] == bits;
  }

  lemma FourBits(bits: seq<Bit>, d: Digit)
    ensures Binary(bits + [d / 8] + [d / 4 % 2] + [d / 2 % 2] + [d % 2]) == 16 * Binary(bits) + d
  {
    hide Binary;
    AppendBit(bits, d / 8);
    AppendBit(bits + [d / 8], d / 4 % 2);
    AppendBit(bits + [d / 8] + [d / 4 % 2], d / 2 % 2);
    AppendBit(bits + [d / 8] + [d / 4 % 2] + [d / 2 % 2], d % 2);
    DigitParts(d);
  }

  lemma DigitParts(d: Digit)
    ensures d == 8 * (d / 8) + 4 * (d / 4 % 2) + 2 * (d / 2 % 2) + d % 2
  {}

  /** The place of the first one, or the length if there is none; dropping zeros keeps the value. */
  method FirstOne(bits: seq<Bit>) returns (first: nat)
    ensures first <= |bits| && (first < |bits| ==> bits[first] == 1)
    ensures Binary(bits[first..]) == Binary(bits)
  {
    first := 0;
    assert bits[0..] == bits;
    while first < |bits| && bits[first] == 0
      invariant first <= |bits| && Binary(bits[first..]) == Binary(bits)
    {
      LeadingZero(bits[first..]);
      assert bits[first..][1..] == bits[first + 1..];
      first := first + 1;
    }
  }

  lemma {:induction false} LeadingZero(bits: seq<Bit>)
    requires bits != [] && bits[0] == 0
    ensures Binary(bits[1..]) == Binary(bits)
  {
    if |bits| > 1 {
      LeadingZero(bits[..|bits| - 1]);
      assert bits[1..][..|bits| - 2] == bits[..|bits| - 1][1..];
    } else {
      assert bits[..0] == [];
    }
  }

  lemma {:induction false} SizeOf(bits: seq<Bit>)
    requires bits != [] && bits[0] == 1
    ensures Binary(bits) > 0 && BitLength(Binary(bits)) == |bits|
  {
    var front := bits[..|bits| - 1];
    if front != [] {
      SizeOf(front);
      assert Binary(bits) / 2 == Binary(front);
    } else {
      assert Binary(bits) == 1 && BitLength(0) == 0;
    }
  }

  lemma {:induction false} ContainsOne(bits: seq<Bit>)
    ensures Binary(bits) != 0 <==> 1 in bits
  {
    if bits != [] {
      ContainsOne(bits[..|bits| - 1]);
      assert bits == bits[..|bits| - 1] + [bits[|bits| - 1]];
    }
  }

  /** A prefix is the quotient by a power of two, and the rest is the remainder. */
  lemma {:induction false} PrefixIsQuotient(bits: seq<Bit>, kept: nat)
    requires kept <= |bits|
    ensures Binary(bits) == Pow2(|bits| - kept) * Binary(bits[..kept]) + Binary(bits[kept..])
    ensures Binary(bits[kept..]) < Pow2(|bits| - kept)
  {
    if kept == |bits| {
      assert bits[..kept] == bits && bits[kept..] == [];
    } else {
      var front, last := bits[..|bits| - 1], bits[|bits| - 1];
      PrefixIsQuotient(front, kept);
      assert front[..kept] == bits[..kept];
      assert bits[kept..] == front[kept..] + [last];
      AppendBit(front[kept..], last);
      assert Binary(bits) == 2 * Binary(front) + last;
      assert Pow2(|bits| - kept) == 2 * Pow2(|front| - kept);
      DoubleParts(Binary(front), Pow2(|front| - kept), Binary(bits[..kept]), Binary(front[kept..]));
    }
  }

  lemma DoubleParts(m: nat, p: nat, q: nat, r: nat)
    requires m == p * q + r
    ensures 2 * m == 2 * p * q + 2 * r
  {}

  /** The first lost bit and whether any later one is set decide the rounding. */
  lemma GuardAndSticky(bits: seq<Bit>, kept: nat)
    requires kept <= |bits|
    ensures var q := Binary(bits[..kept]);
            RoundHalfEven(Binary(bits), Pow2(|bits| - kept))
            == if kept < |bits| && bits[kept] == 1 && (1 in bits[kept + 1..] || q % 2 != 0) then q + 1 else q
  {
    hide Binary, RoundHalfEven, Pow2;
    PrefixIsQuotient(bits, kept);
    if kept == |bits| {
      NoPower(|bits| - kept);
      assert bits[kept..] == [];
      EmptyBinary();
      RoundByParts(Binary(bits), Binary(bits[..kept]), 1, 0, 0, 1);
    } else {
      GuardOfLost(bits, kept);
    }
  }

  lemma GuardOfLost(bits: seq<Bit>, kept: nat)
    requires kept < |bits|
    requires Binary(bits) == Pow2(|bits| - kept) * Binary(bits[..kept]) + Binary(bits[kept..])
    ensures var q := Binary(bits[..kept]);
            RoundHalfEven(Binary(bits), Pow2(|bits| - kept))
            == if bits[kept] == 1 && (1 in bits[kept + 1..] || q % 2 != 0) then q + 1 else q
  {
    hide Binary, RoundHalfEven, Pow2;
    var lost := bits[kept..];
    var half := Pow2(|lost| - 1);
    Pow2Doubles(|lost| - 1);
    assert lost[1..] == bits[kept + 1..];
    FirstBit(lost);
    ContainsOne(lost[1..]);
    RoundByParts(Binary(bits), Binary(bits[..kept]), 2 * half, bits[kept], Binary(lost[1..]), half);
  }

  lemma NoPower(n: nat)
    requires n == 0
    ensures Pow2(n) == 1
  {}

  lemma FirstBit(bits: seq<Bit>)
    requires bits != []
    ensures Binary(bits) == Pow2(|bits| - 1) * bits[0] + Binary(bits[1..])
    ensures Binary(bits[1..]) < Pow2(|bits| - 1)
  {
    hide Binary, Pow2;
    PrefixIsQuotient(bits, 1);
    assert bits[..1] == [] + [bits[0]];
    AppendBit([], bits[0]);
    EmptyBinary();
  }

  lemma EmptyBinary()
    ensures Binary([]) == 0
  {}

  lemma RoundByParts(m: nat, q: nat, d: nat, guard: Bit, rest: nat, half: nat)
    requires m == d * q + (half * guard + rest)
    requires (d == 2 * half && rest < half) || (d == 1 && guard == rest == 0)
    ensures RoundHalfEven(m, d) == if guard == 1 && (rest != 0 || q % 2 != 0) then q + 1 else q
  {
    DivModUnique(m, d, q, half * guard + rest);
  }

  // ---------------------------------------------------------------------------------------------
  // The one rounding is the right one.

  /** `m * 2^exponent`, in units of `2^base`. */
  function InUnits(m: nat, exponent: int, base: int): nat
    requires base <= exponent
  {
    m * Pow2(exponent - base)
  }

  /** The finite double-precision numbers that are not negative. */
  predicate Representable(m: nat, exponent: int) {
    m < 0x20_0000_0000_0000 && -1074 <= exponent <= 971
  }

  function Distance(a: int, b: int): nat {
    if a <= b then b - a else a - b
  }

  lemma NearestMultiple(m: nat, d: nat, k: int)
    requires d > 0
    ensures Distance(RoundHalfEven(m, d) * d, m) <= Distance(k * d, m)
    ensures k != RoundHalfEven(m, d) && Distance(RoundHalfEven(m, d) * d, m) == Distance(k * d, m) ==>
              RoundHalfEven(m, d) % 2 == 0
  {
    var q, r, rounded := m / d, m % d, RoundHalfEven(m, d);
    assert m == q * d + r;
    var step, c := (k - q) * d, rounded - q;
    assert k * d == q * d + step;
    MultiplesApart(k - q, d);
    MultiplesApart(c, d);
    assert rounded * d == q * d + c * d;
    NearerStep(r, d, step, k - q, c, q);
  }

  lemma MultiplesApart(j: int, d: nat)
    requires d > 0
    ensures j <= -1 ==> j * d + d <= 0
    ensures j == 0 ==> j * d == 0
    ensures j == 1 ==> j * d == d
    ensures j >= 2 ==> j * d >= 2 * d
  {
    if j <= -1 {
      ProductAtLeast(d, -j);
    } else if j >= 2 {
      ProductAtLeast(d, j - 1);
    }
  }

  lemma NearerStep(r: nat, d: nat, step: int, j: int, c: nat, q: nat)
    requires r < d && c <= 1
    requires c == if 2 * r > d || (2 * r == d && q % 2 == 1) then 1 else 0
    requires j <= -1 ==> step + d <= 0
    requires j == 0 ==> step == 0
    requires j == 1 ==> step == d
    requires j >= 2 ==> step >= 2 * d
    ensures var own := if c == 0 then 0 else d;
            && Distance(own, r) <= Distance(step, r)
            && (j != c && Distance(own, r) == Distance(step, r) ==> (q + c) % 2 == 0)
  {}

  lemma DistanceScales(a: nat, b: nat, c: nat)
    ensures Distance(a * c, b * c) == Distance(a, b) * c
  {
    if a <= b {
      assert (b - a) * c == b * c - a * c;
      ProductGrows(a, b, c);
    } else {
      assert (a - b) * c == a * c - b * c;
      ProductGrows(b, a, c);
    }
  }

  lemma ProductGrows(a: nat, b: nat, c: nat)
    requires a <= b
    ensures a * c <= b * c
  {}

  /** Moving to a smaller unit multiplies by a power of two. */
  lemma InSmallerUnits(m: nat, exponent: int, shift: nat, base: int)
    requires base <= exponent
    ensures InUnits(m, exponent + shift, base) == m * Pow2(shift) * Pow2(exponent - base)
  {
    Pow2Adds(shift, exponent - base);
    Associates(m, Pow2(shift), Pow2(exponent - base));
  }

  lemma Associates(a: nat, b: nat, c: nat)
    ensures a * (b * c) == a * b * c
  {}

  /** `value` is at least as near to `exact` as `other`; if both are as near, it is the even one. */
  predicate Beats(significand: nat, value: nat, other: nat, exact: nat) {
    && Distance(value, exact) <= Distance(other, exact)
    && (Distance(value, exact) == Distance(other, exact) && other != value ==> significand % 2 == 0)
  }

  /** Compared with a number on the same or a coarser grid. */
  lemma NearestOnCoarserGrid(m: nat, exponent: int, shift: nat, k: nat, q: int, base: int)
    requires base <= exponent && q >= exponent + shift
    ensures var own := RoundHalfEven(m, Pow2(shift));
            Beats(own, InUnits(own, exponent + shift, base), InUnits(k, q, base), InUnits(m, exponent, base))
  {
    hide RoundHalfEven, Distance, Pow2;
    var d, unit := Pow2(shift), Pow2(exponent - base);
    var own := RoundHalfEven(m, d);
    var extra: nat := q - exponent - shift;
    var multiple := k * Pow2(extra);
    InSmallerUnits(own, exponent, shift, base);
    InSmallerUnits(k, exponent + shift, extra, base);
    InSmallerUnits(multiple, exponent, shift, base);
    NearestMultiple(m, d, multiple);
    DistanceScales(own * d, m, unit);
    DistanceScales(multiple * d, m, unit);
    ProductGrows(Distance(own * d, m), Distance(multiple * d, m), unit);
    if Distance(own * d, m) != Distance(multiple * d, m) {
      StrictProduct(Distance(own * d, m), Distance(multiple * d, m), unit);
    }
  }

  lemma StrictProduct(a: nat, b: nat, c: nat)
    requires a < b && c > 0
    ensures a * c < b * c
  {
    assert (b - a) * c == b * c - a * c;
    ProductAtLeast(c, b - a);
  }

  /** Compared with a number on a finer grid, whose numbers all lie below the exact one. */
  lemma NearestOnFinerGrid(m: nat, exponent: int, k: nat, q: int, base: int)
    requires m > 0 && base <= exponent && base <= q && k < 0x20_0000_0000_0000
    requires BitLength(m) > 53 && q < exponent + (BitLength(m) - 53)
    ensures var shift := BitLength(m) - 53;
            var own := RoundHalfEven(m, Pow2(shift));
            Beats(own, InUnits(own, exponent + shift, base), InUnits(k, q, base), InUnits(m, exponent, base))
  {
    hide RoundHalfEven, BitLength, Pow2;
    var shift := BitLength(m) - 53;
    var below := 0x10_0000_0000_0000;
    var e := exponent + shift;
    NearestOnCoarserGrid(m, exponent, shift, below, e, base);
    assert InUnits(below, e, base) <= InUnits(m, exponent, base) by {
      TopBitInUnits(m, exponent, base);
    }
    assert InUnits(k, q, base) < InUnits(below, e, base) by {
      FinerIsSmaller(k, q, e, base);
    }
  }

  lemma TopBitInUnits(m: nat, exponent: int, base: int)
    requires m > 0 && base <= exponent && BitLength(m) > 53
    ensures InUnits(0x10_0000_0000_0000, exponent + (BitLength(m) - 53), base) <= InUnits(m, exponent, base)
  {
    hide BitLength;
    var shift := BitLength(m) - 53;
    InSmallerUnits(0x10_0000_0000_0000, exponent, shift, base);
    BitLengthBounds(m);
    Pow2Of52();
    Pow2Adds(52, shift);
    ProductGrows(0x10_0000_0000_0000 * Pow2(shift), m, Pow2(exponent - base));
  }

  lemma Pow2Of52()
    ensures Pow2(52) == 0x10_0000_0000_0000
    ensures Pow2(53) == 0x20_0000_0000_0000
  {
    Pow2Values();
    Pow2Adds(52, 1);
  }

  lemma FinerIsSmaller(k: nat, q: int, e: int, base: int)
    requires base <= q < e && k < 0x20_0000_0000_0000
    ensures InUnits(k, q, base) < InUnits(0x10_0000_0000_0000, e, base)
  {
    hide Pow2;
    Pow2Doubles(e - base - 1);
    Pow2Grows(q - base, e - base - 1);
    StrictProduct(k, 0x20_0000_0000_0000, Pow2(q - base));
  }

  lemma Pow2Doubles(n: nat)
    ensures Pow2(n + 1) == 2 * Pow2(n)
  {}

  /** A number below half the smallest positive one is nearest to zero. */
  lemma NearestToZero(m: nat, exponent: int, k: nat, q: int, base: int)
    requires m == 0 || exponent + BitLength(m) < -1074
    requires base <= 0 && base <= exponent && base <= q && q >= -1074
    ensures Beats(0, InUnits(0, 0, base), InUnits(k, q, base), InUnits(m, exponent, base))
  {
    hide BitLength, Pow2;
    if m > 0 && k > 0 {
      BitLengthBounds(m);
      var size := BitLength(m);
      InSmallerUnits(1, exponent, size, base);
      StrictProduct(m, Pow2(size), Pow2(exponent - base));
      assert InUnits(m, exponent, base) < Pow2(exponent + size - base);
      Pow2Grows(exponent + size - base, q - base - 1);
      Pow2Doubles(q - base - 1);
      ProductAtLeast(Pow2(q - base), k);
    }
  }

  /**
   What is read is the double-precision number nearest to the exact one, and the even one of two
   that are as near (section 4.3.1 of IEEE 754-2019). `base` only fixes a unit to compare in.
   */
  lemma ReadingIsNearest(m: nat, exponent: int, k: nat, q: int, base: int)
    requires Rounded(m, exponent).Scaled? && Representable(k, q)
    requires base <= exponent && base <= q && base <= Rounded(m, exponent).exponent
    ensures var read := Rounded(m, exponent);
            Beats(read.significand, InUnits(read.significand, read.exponent, base),
                  InUnits(k, q, base), InUnits(m, exponent, base))
  {
    hide BitLength, RoundHalfEven, InUnits, Beats, Overflows;
    var size := BitLength(m);
    if m == 0 || exponent + size < -1074 {
      NearestToZero(m, exponent, k, q, base);
    } else {
      var shift := Shift(size, exponent);
      if q >= exponent + shift {
        NearestOnCoarserGrid(m, exponent, shift, k, q, base);
      } else if shift > 0 {
        NearestOnFinerGrid(m, exponent, k, q, base);
      } else {
        Unshifted(m, exponent, k, q, base);
      }
    }
  }

  lemma Unshifted(m: nat, exponent: int, k: nat, q: int, base: int)
    requires base <= exponent && base <= q
    ensures RoundHalfEven(m, Pow2(0)) == m
    ensures Beats(m, InUnits(m, exponent, base), InUnits(k, q, base), InUnits(m, exponent, base))
  {}

  /** What is read is itself a finite double-precision number. */
  lemma ReadingIsRepresentable(m: nat, exponent: int) returns (k: nat, q: int)
    requires Rounded(m, exponent).Scaled?
    ensures Representable(k, q)
    ensures forall base :: base <= q && base <= Rounded(m, exponent).exponent ==>
              InUnits(k, q, base) == InUnits(Rounded(m, exponent).significand, Rounded(m, exponent).exponent, base)
  {
    hide BitLength, RoundHalfEven, Pow2;
    var read := Rounded(m, exponent);
    k, q := read.significand, read.exponent;
    if m > 0 && exponent + BitLength(m) >= -1074 {
      SignificandFits(m, Shift(BitLength(m), exponent));
      Pow2Of52();
      if q > 971 {
        var extra := q - 971;
        k, q := k * Pow2(extra), 971;
        Pow2Adds(1024 - read.exponent, extra);
        StrictProduct(read.significand, Pow2(1024 - read.exponent), Pow2(extra));
        forall base | base <= q
          ensures InUnits(k, q, base) == InUnits(read.significand, read.exponent, base)
        {
          InSmallerUnits(read.significand, 971, extra, base);
        }
      } else if k == 0x20_0000_0000_0000 {
        k, q := 0x10_0000_0000_0000, q + 1;
        if q > 971 {
          Pow2Grows(1024 - read.exponent, 53);
        }
        forall base | base <= read.exponent
          ensures InUnits(k, q, base) == InUnits(read.significand, read.exponent, base)
        {
          Pow2Doubles(read.exponent - base);
        }
      }
    }
  }

  lemma SignificandFits(m: nat, shift: nat)
    requires m > 0 && BitLength(m) <= shift + 53
    ensures RoundHalfEven(m, Pow2(shift)) <= 0x20_0000_0000_0000
  {
    hide BitLength, Pow2;
    BitLengthBounds(m);
    Pow2Of52();
    Pow2Grows(BitLength(m), shift + 53);
    Pow2Adds(shift, 53);
    var d := Pow2(shift);
    assert m < d * 0x20_0000_0000_0000;
    QuotientBelow(m, d, 0x20_0000_0000_0000);
  }

  lemma QuotientBelow(m: nat, d: nat, n: nat)
    requires d > 0 && m < d * n
    ensures m / d < n
  {
    if m / d >= n {
      ProductGrows(n, m / d, d);
    }
  }

  /**
   A number is rejected exactly if rounding it overflows: if it is at least the midpoint between the
   largest finite number and 2^1024.
   */
  lemma RejectedFromOverflowOn(m: nat, exponent: int, base: int)
    requires base <= exponent && base <= 970
    ensures Rounded(m, exponent) == Rejected
            <==> InUnits(m, exponent, base) >= InUnits(0x3f_ffff_ffff_ffff, 970, base)
  {
    hide BitLength, RoundHalfEven, InUnits, Overflows;
    var size := BitLength(m);
    if m > 0 {
      if exponent + size == 1024 {
        TopBinade(m, exponent, base);
      } else if exponent + size > 1024 {
        AboveTop(m, exponent, base);
      } else {
        BelowTop(m, exponent, base);
      }
    } else {
      ZeroInUnits(exponent, base);
    }
  }

  lemma ZeroInUnits(exponent: int, base: int)
    requires base <= exponent && base <= 970
    ensures InUnits(0, exponent, base) < InUnits(0x3f_ffff_ffff_ffff, 970, base)
  {
    ProductAtLeast(0x3f_ffff_ffff_ffff, Pow2(970 - base));
  }

  /** The midpoint lies between 2^1023 and 2^1024. */
  lemma MidpointInUnits(base: int)
    requires base <= 970
    ensures Pow2(1023 - base) <= InUnits(0x3f_ffff_ffff_ffff, 970, base) <= Pow2(1024 - base)
  {
    hide Pow2;
    Pow2Of52();
    Pow2Doubles(53);
    Pow2Adds(970 - base, 53);
    Pow2Adds(970 - base, 54);
    ProductGrows(Pow2(53), 0x3f_ffff_ffff_ffff, Pow2(970 - base));
    ProductGrows(0x3f_ffff_ffff_ffff, Pow2(54), Pow2(970 - base));
  }

  lemma AboveTop(m: nat, exponent: int, base: int)
    requires m > 0 && exponent + BitLength(m) > 1024 && base <= exponent && base <= 970
    ensures InUnits(m, exponent, base) >= InUnits(0x3f_ffff_ffff_ffff, 970, base)
  {
    hide BitLength, Pow2;
    BitLengthBounds(m);
    var top := BitLength(m) - 1;
    Pow2Adds(top, exponent - base);
    ProductGrows(Pow2(top), m, Pow2(exponent - base));
    Pow2Grows(1024 - base, top + exponent - base);
    MidpointInUnits(base);
  }

  lemma BelowTop(m: nat, exponent: int, base: int)
    requires m > 0 && exponent + BitLength(m) < 1024 && base <= exponent && base <= 970
    ensures Rounded(m, exponent).Scaled?
    ensures InUnits(m, exponent, base) < InUnits(0x3f_ffff_ffff_ffff, 970, base)
  {
    hide BitLength, RoundHalfEven, Pow2;
    var size := BitLength(m);
    BitLengthBounds(m);
    StrictProduct(m, Pow2(size), Pow2(exponent - base));
    Pow2Adds(size, exponent - base);
    Pow2Grows(size + exponent - base, 1023 - base);
    MidpointInUnits(base);
    if exponent + size >= -1074 {
      NoOverflow(m, exponent, Shift(size, exponent));
    }
  }

  lemma NoOverflow(m: nat, exponent: int, shift: nat)
    requires m > 0 && exponent + BitLength(m) < 1024 && shift <= BitLength(m)
    ensures !Overflows(RoundHalfEven(m, Pow2(shift)), exponent + shift)
  {
    hide BitLength, Pow2;
    var size, d := BitLength(m), Pow2(shift);
    BitLengthBounds(m);
    Pow2Adds(shift, size - shift);
    QuotientBelow(m, d, Pow2(size - shift));
    Pow2Grows(size - shift + 1, 1024 - (exponent + shift));
    Pow2Doubles(size - shift);
  }

  /** In the last binade the rounding overflows exactly from the midpoint on. */
  lemma TopBinade(m: nat, exponent: int, base: int)
    requires m > 0 && exponent + BitLength(m) == 1024 && base <= exponent && base <= 970
    ensures Rounded(m, exponent) == Rejected
            <==> InUnits(m, exponent, base) >= InUnits(0x3f_ffff_ffff_ffff, 970, base)
  {
    hide BitLength, Pow2;
    var size := BitLength(m);
    BitLengthBounds(m);
    if size <= 53 {
      SmallTop(m, exponent, base);
    } else {
      LargeTop(m, exponent, base);
    }
  }

  lemma SmallTop(m: nat, exponent: int, base: int)
    requires m > 0 && exponent + BitLength(m) == 1024 && BitLength(m) <= 53
    requires base <= exponent && base <= 970
    ensures Rounded(m, exponent).Scaled?
    ensures InUnits(m, exponent, base) < InUnits(0x3f_ffff_ffff_ffff, 970, base)
  {
    hide BitLength, Pow2;
    var size := BitLength(m);
    BitLengthBounds(m);
    WholeNumbersStay(m);
    Pow2Of52();
    Pow2Doubles(53);
    Pow2Adds(size, 54 - size);
    Pow2Doubles(53 - size);
    ProductGrows(m, Pow2(size) - 1, Pow2(54 - size));
    assert (Pow2(size) - 1) * Pow2(54 - size) == Pow2(54) - Pow2(54 - size);
    InSmallerUnits(m, 970, 54 - size, base);
    StrictProduct(m * Pow2(54 - size), 0x3f_ffff_ffff_ffff, Pow2(970 - base));
  }

  lemma WholeNumbersStay(m: nat)
    ensures RoundHalfEven(m, Pow2(0)) == m
  {}

  lemma LargeTop(m: nat, exponent: int, base: int)
    requires m > 0 && exponent + BitLength(m) == 1024 && BitLength(m) > 53
    requires base <= exponent && base <= 970
    ensures Rounded(m, exponent) == Rejected
            <==> InUnits(m, exponent, base) >= InUnits(0x3f_ffff_ffff_ffff, 970, base)
  {
    hide BitLength, RoundHalfEven, Pow2;
    var size := BitLength(m);
    var shift := size - 53;
    var half, unit := Pow2(shift - 1), Pow2(exponent - base);
    BitLengthBounds(m);
    Pow2Of52();
    Pow2Adds(shift, 53);
    Pow2Doubles(shift - 1);
    CarriesFromMidpoint(m, half);
    InSmallerUnits(0x3f_ffff_ffff_ffff, exponent, shift - 1, base);
    if m >= 0x3f_ffff_ffff_ffff * half {
      ProductGrows(0x3f_ffff_ffff_ffff * half, m, unit);
    } else {
      StrictProduct(m, 0x3f_ffff_ffff_ffff * half, unit);
    }
  }

  lemma CarriesFromMidpoint(m: nat, half: nat)
    requires half > 0 && m < 2 * half * 0x20_0000_0000_0000
    ensures RoundHalfEven(m, 2 * half) >= 0x20_0000_0000_0000 <==> m >= 0x3f_ffff_ffff_ffff * half
  {
    var d := 2 * half;
    var q, r := m / d, m % d;
    assert m == d * q + r;
    QuotientBelow(m, d, 0x20_0000_0000_0000);
    var missing := 0x1f_ffff_ffff_ffff - q;
    assert d * q == d * 0x1f_ffff_ffff_ffff - d * missing;
    if missing > 0 {
      ProductAtLeast(d, missing);
    }
  }
}
