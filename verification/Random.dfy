/**
 The generator behind seeded decks: an additive lagged Fibonacci generator kept in a ring buffer,
 unbiased bounded draws, and the in-place shuffle built on them.
 */
module Random {
  import opened Common
  import opened Arithmetic
  import opened Shuffling

  const WORD := 0x1_0000_0000_0000_0000
  const HALF_WORD := 0x8000_0000_0000_0000
  const LENGTH := 607
  const PRIME := 0x7fff_ffff

  // ---------------------------------------------------------------------------------------------
  // Seeding.

  /** Multiplication by 48271 modulo a prime, split so that no product overflows. */
  function Step(x: nat): int {
    var next := 48_271 * (x % 44_488) - 3399 * (x / 44_488);
    if next < 0 then next + PRIME else next
  }

  /** The split multiplication is the multiplication, and never leaves the non-zero residues. */
  lemma StepMultiplies(x: nat)
    requires 1 <= x < PRIME
    ensures Step(x) == 48_271 * x % PRIME
    ensures 1 <= Step(x) < PRIME
  {
    var q, r := x / 44_488, x % 44_488;
    assert x == 44_488 * q + r;
    assert 48_271 * x == PRIME * q + (48_271 * r - 3399 * q);
    if 48_271 * r - 3399 * q < 0 {
      DivModUnique(48_271 * x, PRIME, q - 1, Step(x));
    } else {
      DivModUnique(48_271 * x, PRIME, q, Step(x));
    }
    if Step(x) == 0 {
      var k := 48_271 * x / PRIME;
      assert 48_271 * x == PRIME * k;
      // 1899818559 is the inverse of the multiplier, so a zero product needs a zero factor.
      assert 1_899_818_559 * (48_271 * x) == x + PRIME * (42_704 * x);
      assert x == PRIME * (1_899_818_559 * k - 42_704 * x);
      SmallMultipleIsZero(PRIME, 1_899_818_559 * k - 42_704 * x);
    }
  }

  function StepMany(x: nat, count: nat): nat
    requires 1 <= x < PRIME
    ensures 1 <= StepMany(x, count) < PRIME
  {
    if count == 0 then x
    else
      StepMultiplies(StepMany(x, count - 1));
      Step(StepMany(x, count - 1))
  }

  function StartOf(seed: int): nat {
    if seed % PRIME == 0 then 89_482_311 else seed % PRIME
  }

  function ShiftLeft(x: nat, bits: nat): nat {
    x * Pow2(bits) % WORD
  }

  /** The state word at an index: three consecutive residues, mixed with a fixed constant. */
  function SeedWord(seed: int, constants: seq<nat>, index: nat): nat
    requires index < |constants|
  {
    var x := StartOf(seed);
    var high := ShiftLeft(StepMany(x, 3 * index + 21), 40);
    var middle := ShiftLeft(StepMany(x, 3 * index + 22), 20);
    BitXor(BitXor(BitXor(high, middle), StepMany(x, 3 * index + 23)), constants[index])
  }

  lemma SeedWordBelow(seed: int, constants: seq<nat>, index: nat)
    requires index < |constants| && constants[index] < WORD
    ensures SeedWord(seed, constants, index) < WORD
  {
    Pow2Values();
    var x := StartOf(seed);
    var high := ShiftLeft(StepMany(x, 3 * index + 21), 40);
    var middle := ShiftLeft(StepMany(x, 3 * index + 22), 20);
    XorBelow(high, middle, 64);
    XorBelow(BitXor(high, middle), StepMany(x, 3 * index + 23), 64);
    XorBelow(BitXor(BitXor(high, middle), StepMany(x, 3 * index + 23)), constants[index], 64);
  }

  // ---------------------------------------------------------------------------------------------
  // The generator. Its words are numbered from the seeded state on, so the first word that is
  // drawn has number `LENGTH`.

  /** The place in the ring where a word is kept until its successor `LENGTH` words later. */
  function Slot(i: int): nat {
    (333 - i) % LENGTH
  }

  /** The word after the given ones: the sum of the words 607 and 273 before it. */
  function NextWord(words: seq<nat>): nat
    requires |words| >= LENGTH
  {
    (words[|words| - 607] + words[|words| - 273]) % WORD
  }

  /** The given words followed by `count` more. */
  function Extend(words: seq<nat>, count: nat): (all: seq<nat>)
    requires |words| >= LENGTH
    ensures |all| == |words| + count
    decreases count
  {
    if count == 0 then words
    else
      var before := Extend(words, count - 1);
      before + [NextWord(before)]
  }

  /** Every word past the seed is the sum, modulo 2^64, of the words 607 and 273 before it. */
  lemma {:induction false} ExtendRecurrence(words: seq<nat>, count: nat, n: nat)
    requires |words| == LENGTH && LENGTH <= n < LENGTH + count
    ensures var all := Extend(words, count);
            all[n] == (all[n - 607] + all[n - 273]) % WORD
  {
    if n < LENGTH + count - 1 {
      ExtendRecurrence(words, count - 1, n);
    }
  }

  lemma {:induction false} ExtendAdds(words: seq<nat>, a: nat, b: nat)
    requires |words| >= LENGTH
    ensures Extend(Extend(words, a), b) == Extend(words, a + b)
    decreases b
  {
    if b > 0 {
      ExtendAdds(words, a, b - 1);
    }
  }

  /** The number a draw returns: the next word without its top bit. */
  function DrawnWord(words: seq<nat>): nat
    requires |words| >= LENGTH
  {
    NextWord(words) % HALF_WORD
  }

  // Bounded draws.

  predicate Small(bound: nat) {
    bound <= 0x7fff_ffff
  }

  function Range(bound: nat): nat {
    if Small(bound) then 0x8000_0000 else HALF_WORD
  }

  /** The largest raw draw that is kept for a bound that is not a power of two. */
  function Maximum(bound: nat): int
    requires bound > 0
  {
    Range(bound) - 1 - Range(bound) % bound
  }

  predicate Accepts(bound: nat, raw: nat)
    requires bound > 0
  {
    IsPowerOfTwo(bound) || raw <= Maximum(bound)
  }

  function Raw(words: seq<nat>, bound: nat): nat
    requires |words| >= LENGTH
  {
    if Small(bound) then DrawnWord(words) / 0x1_0000_0000 else DrawnWord(words)
  }

  /** How many draws are thrown away before one is kept, if at most `fuel` draws are made. */
  function Rejections(words: seq<nat>, bound: nat, fuel: nat): (count: Option<nat>)
    requires |words| >= LENGTH && bound > 0
    ensures count.Some? ==> count.value < fuel
    decreases fuel
  {
    if fuel == 0 then None
    else if Accepts(bound, Raw(words, bound)) then Some(0)
    else
      match Rejections(Extend(words, 1), bound, fuel - 1)
      case None => None
      case Some(more) => Some(more + 1)
  }

  /** The bounded draw: the remainder of the first raw draw that is kept. */
  function Bounded(words: seq<nat>, bound: nat, fuel: nat): Option<nat>
    requires |words| >= LENGTH && bound > 0
  {
    match Rejections(words, bound, fuel)
    case None => None
    case Some(skipped) => Some(Raw(Extend(words, skipped), bound) % bound)
  }

  /** How many words a bounded draw uses up. */
  function Used(words: seq<nat>, bound: nat, fuel: nat): nat
    requires |words| >= LENGTH && bound > 0
  {
    match Rejections(words, bound, fuel)
    case None => fuel
    case Some(skipped) => skipped + 1
  }

  lemma MaskDropsTopBit(word: nat)
    ensures BitAnd(word, 0x7fff_ffff_ffff_ffff) == word % HALF_WORD
  {
    Pow2Values();
    MaskIsRemainder(word, 63);
  }

  /** The seeded state, numbered in the order in which later draws will use it. */
  function SeededWords(seed: int, constants: seq<nat>): (words: seq<nat>)
    requires |constants| == LENGTH && forall i :: 0 <= i < LENGTH ==> constants[i] < WORD
    ensures |words| == LENGTH
    ensures forall i {:trigger words[i]} :: 0 <= i < LENGTH ==>
              words[i] == SeedWord(seed, constants, Slot(i)) && words[i] < WORD
  {
    var words := seq(LENGTH, (i: nat) => SeedWord(seed, constants, Slot(i)));
    assert forall i {:trigger words[i]} :: 0 <= i < LENGTH ==> words[i] < WORD by {
      forall i {:trigger words[i]} | 0 <= i < LENGTH
        ensures words[i] < WORD
      {
        SeedWordBelow(seed, constants, Slot(i));
      }
    }
    words
  }

  method SeedState(seed: int, constants: seq<nat>) returns (ring: array<nat>)
    requires |constants| == LENGTH
    ensures fresh(ring) && ring.Length == LENGTH
    ensures forall i {:trigger ring[i]} :: 0 <= i < LENGTH ==> ring[i] == SeedWord(seed, constants, i)
  {
    hide SeedWord, NextWord, Step, StepMany, StartOf, Pow2, BitXor;
    var x := FirstResidue(seed);
    ghost var start, steps := StartOf(seed), 0;
    ring := new nat[LENGTH](_ => 0);
    for index := -20 to LENGTH
      invariant steps == if index <= 0 then index + 20 else 3 * index + 20
      invariant 1 <= start < PRIME && x == StepMany(start, steps)
      invariant forall i {:trigger ring[i]} :: 0 <= i < index ==> ring[i] == SeedWord(seed, constants, i)
    {
      x := NextResidue(x, start, steps);
      steps := steps + 1;
      if index >= 0 {
        x, ring[index] := Mixed(x, seed, constants, index);
        steps := steps + 2;
      }
    }
  }

  method FirstResidue(seed: int) returns (x: nat)
    ensures 1 <= StartOf(seed) < PRIME && x == StepMany(StartOf(seed), 0)
  {
    x := seed % PRIME;
    if x == 0 {
      x := 89_482_311;
    }
  }

  /** Draws the two further residues of one state word and mixes the three with its constant. */
  method Mixed(high: nat, ghost seed: int, constants: seq<nat>, index: nat) returns (x: nat, word: nat)
    requires index < |constants| && high == StepMany(StartOf(seed), 3 * index + 21)
    ensures x == StepMany(StartOf(seed), 3 * index + 23)
    ensures word == SeedWord(seed, constants, index)
  {
    var value := ShiftLeft(high, 40);
    x := NextResidue(high, StartOf(seed), 3 * index + 21);
    value := BitXor(value, ShiftLeft(x, 20));
    x := NextResidue(x, StartOf(seed), 3 * index + 22);
    word := BitXor(BitXor(value, x), constants[index]);
  }

  method NextResidue(x: nat, ghost start: nat, ghost count: nat) returns (next: nat)
    requires 1 <= start < PRIME && x == StepMany(start, count)
    ensures next == StepMany(start, count + 1)
  {
    StepMultiplies(x);
    next := Step(x);
  }

  lemma SlotsRecede(n: nat)
    ensures (Slot(n - 274) + 606) % 607 == Slot(n - 273)
    ensures (Slot(n - 1) + 606) % 607 == Slot(n) == Slot(n - 607)
  {
    SlotRecedes(n - 273);
    SlotRecedes(n);
    DivModUnique(333 - n, 607, (333 - n + 607) / 607 - 1, Slot(n - 607));
  }

  lemma SlotRecedes(n: int)
    ensures (Slot(n - 1) + 606) % 607 == Slot(n)
  {
    var q, r := (334 - n) / 607, Slot(n - 1);
    assert 334 - n == 607 * q + r;
    if r == 0 {
      DivModUnique(333 - n, 607, q - 1, 606);
    } else {
      DivModUnique(333 - n, 607, q, r - 1);
      DivModUnique(r + 606, 607, 1, r - 1);
    }
  }

  lemma SlotsDiffer(i: nat, j: nat)
    requires i < j < i + LENGTH
    ensures Slot(i) != Slot(j)
  {
    if Slot(i) == Slot(j) {
      var a, b := (333 - i) / 607, (333 - j) / 607;
      assert 333 - i == 607 * a + Slot(i) && 333 - j == 607 * b + Slot(j);
      SmallMultipleIsZero(607, a - b);
    }
  }

  /** What a shuffle has drawn so far: its choices, and how many words they used up. */
  datatype Drawn = OutOfFuel | Made(choices: seq<nat>, used: nat)

  /** The first `count` choices the generator makes, and the words they use up. */
  function Choices(words: seq<nat>, count: nat, fuel: nat): (drawn: Drawn)
    requires |words| >= LENGTH
    ensures drawn.Made? ==> |drawn.choices| == count && Choosable(drawn.choices)
  {
    if count == 0 then Made([], 0)
    else
      var before := Choices(words, count - 1, fuel);
      if before.OutOfFuel? then OutOfFuel else NextChoice(words, before, fuel)
  }

  function NextChoice(words: seq<nat>, before: Drawn, fuel: nat): (drawn: Drawn)
    requires |words| >= LENGTH && before.Made? && Choosable(before.choices)
    ensures drawn.Made? ==> |drawn.choices| == |before.choices| + 1 && Choosable(drawn.choices)
  {
    var rest := Extend(words, before.used);
    var bound := |before.choices| + 1;
    BoundedBelow(rest, bound, fuel);
    if Bounded(rest, bound, fuel).None? then OutOfFuel
    else Made(before.choices + [Bounded(rest, bound, fuel).value], before.used + Used(rest, bound, fuel))
  }

  lemma {:induction false} ChoicesStop(words: seq<nat>, few: nat, many: nat, fuel: nat)
    requires |words| >= LENGTH && few <= many && Choices(words, few, fuel).OutOfFuel?
    ensures Choices(words, many, fuel).OutOfFuel?
    decreases many - few
  {
    hide NextChoice;
    if few < many {
      assert Choices(words, few + 1, fuel).OutOfFuel?;
      ChoicesStop(words, few + 1, many, fuel);
    }
  }

  class GoRandom {
    var state: array<nat>
    var tap: nat
    var feed: nat
    ghost var words: seq<nat>

    ghost predicate Valid()
      reads this, state
    {
      && state.Length == LENGTH <= |words|
      && tap == Slot(|words| - 274)
      && feed == Slot(|words| - 1)
      && (forall i {:trigger Slot(i)} :: |words| - LENGTH <= i < |words| ==> state[Slot(i)] == words[i])
    }

    constructor (seed: int, constants: seq<nat>)
      requires |constants| == LENGTH && forall i :: 0 <= i < LENGTH ==> constants[i] < WORD
      ensures Valid() && fresh(state)
      ensures words == SeededWords(seed, constants)
    {
      var ring := SeedState(seed, constants);
      state := ring;
      tap := 0;
      feed := 334;
      words := SeededWords(seed, constants);
    }

    method Int63() returns (value: nat)
      requires Valid()
      modifies this, state
      ensures Valid() && state == old(state)
      ensures words == Extend(old(words), 1)
      ensures value == DrawnWord(old(words))
    {
      var next := |words|;
      tap := (tap + 606) % 607;
      feed := (feed + 606) % 607;
      SlotsRecede(next);
      var word := (state[feed] + state[tap]) % WORD;
      state[feed] := word;
      value := BitAnd(word, 0x7fff_ffff_ffff_ffff);
      MaskDropsTopBit(word);
      words := words + [word];
      forall i {:trigger Slot(i)} | |words| - LENGTH <= i < |words|
        ensures state[Slot(i)] == words[i]
      {
        if i < next {
          SlotsDiffer(i, next);
        }
      }
    }

    /** A draw below the bound, giving up after `fuel` raw draws. */
    method Intn(bound: nat, fuel: nat) returns (drawn: Option<nat>)
      requires Valid() && 0 < bound < HALF_WORD
      modifies this, state
      ensures Valid() && state == old(state)
      ensures words == Extend(old(words), Used(old(words), bound, fuel))
      ensures drawn == Bounded(old(words), bound, fuel)
    {
      hide Slot, NextWord, Rejections, Extend, Accepts, Bounded, Used;
      ghost var start := words;
      var made := 0;
      DrawsBegin(start, bound, fuel);
      while made < fuel
        invariant made <= fuel && Valid() && state == old(state)
        invariant words == Extend(start, made)
        invariant Rejections(start, bound, fuel) == Later(Rejections(words, bound, fuel - made), made)
      {
        OneMoreDraw(start, bound, fuel, made);
        var value := Int63();
        drawn := Keep(bound, value);
        if drawn.Some? {
          return;
        }
        made := made + 1;
      }
      DrawsEnd(start, bound, fuel);
      drawn := None;
    }

    /** Draws the place to swap with the next one; `drawn` records what was drawn before. */
    method NextPlace(index: nat, fuel: nat, ghost start: seq<nat>, ghost drawn: Drawn)
      returns (choice: Option<nat>)
      requires Valid() && index + 1 < HALF_WORD
      requires |start| >= LENGTH && drawn.Made? && |drawn.choices| == index && Choosable(drawn.choices)
      requires words == Extend(start, drawn.used)
      modifies this, state
      ensures Valid() && state == old(state)
      ensures choice.None? <==> NextChoice(start, drawn, fuel).OutOfFuel?
      ensures choice.Some? ==>
                var more := NextChoice(start, drawn, fuel);
                more.choices == drawn.choices + [choice.value] && words == Extend(start, more.used)
    {
      hide Slot, NextWord, Extend;
      ExtendAdds(start, drawn.used, Used(words, index + 1, fuel));
      choice := Intn(index + 1, fuel);
    }

    /** Shuffles in place, and reports whether every draw stayed within its `fuel`. */
    method Shuffle<T>(values: array<T>, fuel: nat) returns (done: bool)
      requires Valid() && values.Length < HALF_WORD
      requires values as object != state as object
      modifies this, state, values
      ensures Valid() && state == old(state)
      ensures done == Choices(old(words), values.Length, fuel).Made?
      ensures done ==>
                var drawn := Choices(old(words), values.Length, fuel);
                && values[..] == Arrange(old(values[..]), drawn.choices)
                && words == Extend(old(words), drawn.used)
    {
      ghost var start, items := words, values[..];
      for index := 0 to values.Length
        invariant Valid() && state == old(state)
        invariant Choices(start, index, fuel).Made?
        invariant words == Extend(start, Choices(start, index, fuel).used)
        invariant values[..] == Arrange(items, Choices(start, index, fuel).choices)
      {
        ghost var drawn := Choices(start, index, fuel);
        var choice := NextPlace(index, fuel, start, drawn);
        assert Choices(start, index + 1, fuel) == NextChoice(start, drawn, fuel);
        if choice == None {
          ChoicesStop(start, index + 1, values.Length, fuel);
          return false;
        }
        assert choice.value <= index by {
          assert Choices(start, index + 1, fuel).choices[index] == choice.value;
        }
        ArrangeMore(items, drawn.choices, choice.value);
        SwapPlaces(values, index, choice.value);
      }
      done := true;
    }
  }

  lemma DrawsBegin(start: seq<nat>, bound: nat, fuel: nat)
    requires |start| >= LENGTH && bound > 0
    ensures Extend(start, 0) == start
    ensures Later(Rejections(start, bound, fuel), 0) == Rejections(start, bound, fuel)
  {}

  lemma DrawsEnd(start: seq<nat>, bound: nat, fuel: nat)
    requires |start| >= LENGTH && bound > 0
    requires Rejections(start, bound, fuel) == Later(Rejections(Extend(start, fuel), bound, 0), fuel)
    ensures Bounded(start, bound, fuel) == None && Used(start, bound, fuel) == fuel
  {}

  lemma OneMoreDraw(start: seq<nat>, bound: nat, fuel: nat, made: nat)
    requires |start| >= LENGTH && bound > 0 && made < fuel
    requires Rejections(start, bound, fuel) == Later(Rejections(Extend(start, made), bound, fuel - made), made)
    ensures Extend(Extend(start, made), 1) == Extend(start, made + 1)
    ensures var raw := Raw(Extend(start, made), bound);
            if Accepts(bound, raw) then
              Bounded(start, bound, fuel) == Some(raw % bound) && Used(start, bound, fuel) == made + 1
            else
              Rejections(start, bound, fuel)
              == Later(Rejections(Extend(start, made + 1), bound, fuel - made - 1), made + 1)
  {
    hide Extend, Raw, Accepts;
    ExtendAdds(start, made, 1);
  }

  /** The result of one drawn number, unless it is thrown away. */
  method Keep(bound: nat, number: nat) returns (kept: Option<nat>)
    requires 0 < bound < HALF_WORD && number < HALF_WORD
    ensures var raw := if Small(bound) then number / 0x1_0000_0000 else number;
            kept == if Accepts(bound, raw) then Some(raw % bound) else None
  {
    var small := bound <= 0x7fff_ffff;
    var range := if small then 0x8000_0000 else HALF_WORD;
    var maximum := range - 1 - range % bound;
    var value := if small then number / 0x1_0000_0000 else number;
    if IsPowerOfTwo(bound) {
      PowerOfTwoMask(bound, value);
      return Some(BitAnd(value, bound - 1));
    }
    if value <= maximum {
      return Some(value % bound);
    }
    kept := None;
  }

  function Later(count: Option<nat>, more: nat): Option<nat> {
    match count
    case None => None
    case Some(n) => Some(n + more)
  }

  // ---------------------------------------------------------------------------------------------
  // A bounded draw is fair.

  lemma PowerOfTwoDividesRange(bound: nat)
    requires 0 < bound < HALF_WORD && IsPowerOfTwo(bound)
    ensures Range(bound) % bound == 0
  {
    Pow2Values();
    var k := PowerOfTwoExponent(bound);
    var top := if Small(bound) then 31 else 63;
    if k > top {
      Pow2Grows(top, k);
    }
    Pow2Adds(k, top - k);
    DivModUnique(Range(bound), bound, Pow2(top - k), 0);
  }

  /** For a power of two the mask is the remainder, and skipping the test rejects no draw wrongly. */
  lemma PowerOfTwoMask(bound: nat, raw: nat)
    requires 0 < bound < HALF_WORD && IsPowerOfTwo(bound)
    ensures BitAnd(raw, bound - 1) == raw % bound
    ensures raw < Range(bound) ==> raw <= Maximum(bound)
  {
    PowerOfTwoDividesRange(bound);
    var k := PowerOfTwoExponent(bound);
    MaskIsRemainder(raw, k);
  }

  /** The kept raw draws are whole blocks of `bound`, and more than half of all raw draws. */
  lemma KeptDraws(bound: nat)
    requires 0 < bound < HALF_WORD
    ensures Maximum(bound) + 1 == bound * (Range(bound) / bound)
    ensures 2 * (Maximum(bound) + 1) > Range(bound)
    ensures forall raw: nat :: raw < Range(bound) ==> (Accepts(bound, raw) <==> raw <= Maximum(bound))
  {
    var blocks := Range(bound) / bound;
    assert Range(bound) == bound * blocks + Range(bound) % bound;
    assert blocks >= 1;
    ProductAtLeast(bound, blocks);
    if IsPowerOfTwo(bound) {
      PowerOfTwoDividesRange(bound);
    }
  }

  lemma {:induction false} BoundedBelow(words: seq<nat>, bound: nat, fuel: nat)
    requires |words| >= LENGTH && bound > 0
    ensures Bounded(words, bound, fuel).Some? ==> Bounded(words, bound, fuel).value < bound
  {
    if Rejections(words, bound, fuel).Some? {
      var raw := Raw(Extend(words, Rejections(words, bound, fuel).value), bound);
      assert raw % bound < bound;
    }
  }

  /** The kept raw draws that lead to a result. */
  ghost function Preimages(bound: nat, result: nat): set<nat>
    requires bound > 0
  {
    set raw: nat | raw < Range(bound) && Accepts(bound, raw) && raw % bound == result
  }

  ghost function InBlocks(bound: nat, result: nat, blocks: nat): set<nat>
    requires bound > 0
  {
    set raw: nat | raw < bound * blocks && raw % bound == result
  }

  lemma {:induction false} OnePerBlock(bound: nat, result: nat, blocks: nat)
    requires result < bound
    ensures |InBlocks(bound, result, blocks)| == blocks
  {
    if blocks == 0 {
      assert InBlocks(bound, result, 0) == {};
    } else {
      OnePerBlock(bound, result, blocks - 1);
      var fewer := InBlocks(bound, result, blocks - 1);
      var last := bound * (blocks - 1) + result;
      assert bound * blocks == bound * (blocks - 1) + bound;
      DivModUnique(last, bound, blocks - 1, result);
      forall raw: nat | raw < bound * blocks && raw % bound == result
        ensures raw in fewer || raw == last
      {
        if raw >= bound * (blocks - 1) {
          DivModUnique(raw, bound, blocks - 1, raw - bound * (blocks - 1));
        }
      }
      assert InBlocks(bound, result, blocks) == fewer + {last};
    }
  }

  /** Every result below the bound is reached by the same number of kept raw draws. */
  lemma BoundedDrawIsFair(bound: nat, result: nat)
    requires 0 < bound < HALF_WORD && result < bound
    ensures |Preimages(bound, result)| == Range(bound) / bound
  {
    KeptDraws(bound);
    OnePerBlock(bound, result, Range(bound) / bound);
    assert Preimages(bound, result) == InBlocks(bound, result, Range(bound) / bound);
  }

  /** A larger allowance never changes a draw that was already made. */
  lemma {:induction false} FuelOnlyDelays(words: seq<nat>, bound: nat, fuel: nat, more: nat)
    requires |words| >= LENGTH && bound > 0 && fuel <= more
    requires Rejections(words, bound, fuel).Some?
    ensures Rejections(words, bound, more) == Rejections(words, bound, fuel)
    decreases fuel
  {
    if fuel > 0 && !Accepts(bound, Raw(words, bound)) {
      FuelOnlyDelays(Extend(words, 1), bound, fuel - 1, more - 1);
    }
  }
}
