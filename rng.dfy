/** Seeded random source: Mulberry32 over a 32-bit state, and the string hash
    that derives a seed from a text such as a calendar date (src/utils/rng.js). */
module Rng {

  const TWO_32: int := 0x1_0000_0000

  /** `n >>> 0` for an integral JavaScript number: the value modulo 2^32. */
  function ToUint32(n: int): bv32 {
    (n % TWO_32) as bv32
  }

  // ---------------------------------------------------------------------
  // hashStringToSeed

  const HASH_INIT: bv32 := 1779033703
  const HASH_MUL: bv32 := 3432918353
  const AVALANCHE_MUL_1: bv32 := 2246822507
  const AVALANCHE_MUL_2: bv32 := 3266489909

  /** First line of the loop body: mix in one UTF-16 code unit and multiply
      (Math.imul keeps the low 32 bits, as bv32 multiplication does). */
  function HashMultiply(h: bv32, unit: bv16): bv32 {
    (h ^ (unit as bv32)) * HASH_MUL
  }

  /** Second line of the loop body: rotate left by 13. */
  function RotateLeft13(h: bv32): bv32 {
    (h << 13) | (h >> 19)
  }

  /** One iteration of the hash loop. */
  function HashRound(h: bv32, unit: bv16): bv32 {
    RotateLeft13(HashMultiply(h, unit))
  }

  /** The loop state after absorbing `units` one by one, starting from `h0`. */
  function HashPrefix(h0: bv32, units: seq<bv16>): bv32
    decreases |units|
  {
    if units == [] then h0
    else HashRound(HashPrefix(h0, units[..|units| - 1]), units[|units| - 1])
  }

  // The three xor-shift steps after the loop, the first two with a multiply.
  function AvalancheStep1(h: bv32): bv32 { (h ^ (h >> 16)) * AVALANCHE_MUL_1 }
  function AvalancheStep2(h: bv32): bv32 { (h ^ (h >> 13)) * AVALANCHE_MUL_2 }
  function AvalancheFinal(h: bv32): bv32 { h ^ (h >> 16) }

  function Avalanche(h: bv32): bv32 {
    AvalancheFinal(AvalancheStep2(AvalancheStep1(h)))
  }

  /** The loop's starting state: the constant xor the length (`input.length`). */
  function HashStart(length: nat): bv32 {
    HASH_INIT ^ ToUint32(length)
  }

  /** The seed a string hashes to: a function of its code units alone. */
  function HashSeed(input: seq<bv16>): bv32 {
    Avalanche(HashPrefix(HashStart(|input|), input))
  }

  /** The hash absorbs its input as a stream: hashing `a + b` is hashing `b`
      from the state reached after `a`. */
  lemma {:induction false} HashPrefixAppend(h0: bv32, a: seq<bv16>, b: seq<bv16>)
    ensures HashPrefix(h0, a + b) == HashPrefix(HashPrefix(h0, a), b)
    decreases |b|
  {
    if b == [] {
      assert a + b == a;
    } else {
      var b' := b[..|b| - 1];
      assert (a + b)[..|a + b| - 1] == a + b';
      assert (a + b)[|a + b| - 1] == b[|b| - 1];
      HashPrefixAppend(h0, a, b');
    }
  }

  /** hashStringToSeed: the `for` loop over the code units, then the avalanche. */
  method HashStringToSeed(input: seq<bv16>) returns (seed: bv32)
    ensures seed == HashSeed(input)
  {
    var h := HashStart(|input|);
    ghost var h0 := h;
    for i := 0 to |input|
      invariant h == HashPrefix(h0, input[..i])
    {
      assert input[..i + 1][..i] == input[..i];
      h := HashMultiply(h, input[i]);
      h := RotateLeft13(h);
    }
    assert input[..|input|] == input;
    h := AvalancheStep1(h);
    h := AvalancheStep2(h);
    seed := AvalancheFinal(h);
  }

  // ---------------------------------------------------------------------
  // Mulberry32

  /** The amount `next()` adds to the state before mixing. */
  const INCREMENT: bv32 := 0x6D2B79F5

  // The three lines of Mulberry32's output mix; `+` inside the xor wraps like
  // ToInt32 of the JavaScript sum.
  function MixMultiply(t: bv32): bv32 { (t ^ (t >> 15)) * (t | 1) }
  function MixAdd(t: bv32): bv32 { t ^ (t + (t ^ (t >> 7)) * (t | 61)) }
  function MixFinal(t: bv32): bv32 { t ^ (t >> 14) }

  /** The output mix applied to the already advanced state. */
  function Mix(state: bv32): bv32 {
    MixFinal(MixAdd(MixMultiply(state)))
  }

  /** `(k >>> 0) / 4294967296`: a multiple of 2^-32 in [0, 1). */
  function ToUnit(k: bv32): (u: real)
    ensures 0.0 <= u < 1.0
    ensures u * 4294967296.0 == (k as int) as real
  {
    var n := k as int;
    assert 0 <= n < TWO_32;
    n as real / 4294967296.0
  }

  /** The number `next()` returns once the state has become `state`. */
  function Draw(state: bv32): (u: real)
    ensures 0.0 <= u < 1.0
  {
    ToUnit(Mix(state))
  }

  /** `this.seed += 0x6d2b79f5`: one call's change of state, modulo 2^32. */
  function Step(state: bv32): bv32 {
    state + INCREMENT
  }

  /** The state after `n` calls of `next()` from `state`. */
  function Advance(state: bv32, n: nat): bv32 {
    if n == 0 then state else Step(Advance(state, n - 1))
  }

  /** The first `n` numbers `next()` returns from `state`. */
  function Draws(state: bv32, n: nat): (us: seq<real>)
    ensures |us| == n
    ensures forall i :: 0 <= i < n ==> 0.0 <= us[i] < 1.0
  {
    if n == 0 then [] else Draws(state, n - 1) + [Draw(Advance(state, n))]
  }

  lemma {:induction false} AdvanceAdd(state: bv32, n: nat, m: nat)
    ensures Advance(Advance(state, n), m) == Advance(state, n + m)
  {
    if m > 0 {
      AdvanceAdd(state, n, m - 1);
    }
  }

  /** A stream of n + m draws is the first n draws followed by the m draws
      from the state they left behind. */
  lemma {:induction false} DrawsSplit(state: bv32, n: nat, m: nat)
    ensures Draws(state, n + m) == Draws(state, n) + Draws(Advance(state, n), m)
  {
    if m > 0 {
      DrawsSplit(state, n, m - 1);
      AdvanceAdd(state, n, m);
    }
  }

  lemma MulPos(a: real, b: real)
    requires a > 0.0 && b > 0.0
    ensures a * b > 0.0
  {}

  lemma ScalePos(a: real, u: real)
    requires 0.0 <= u < 1.0 && a > 0.0
    ensures 0.0 <= a * u < a
  {
    MulPos(a, 1.0 - u);
    assert a * (1.0 - u) == a - a * u;
  }

  /** `span * u` for a draw u in [0, 1): a fraction of a positive span, nothing of an empty one. */
  function Scale(span: real, u: real): (p: real)
    requires 0.0 <= u < 1.0
    ensures span > 0.0 ==> 0.0 <= p < span
    ensures span == 0.0 ==> p == 0.0
  {
    if span > 0.0 then ScalePos(span, u); span * u
    else if span == 0.0 then 0.0
    else span * u
  }

  /** `min + (max - min) * u`: inside [min, max) when min < max, exactly min
      when they are equal. */
  function Range(min: real, max: real, u: real): (r: real)
    requires 0.0 <= u < 1.0
    ensures min < max ==> min <= r < max
    ensures min == max ==> r == min
  {
    min + Scale(max - min, u)
  }

  /** `Math.floor(nextRange(min, maxInclusive + 1))` for a draw u. */
  function IntRange(min: int, maxInclusive: int, u: real): (r: int)
    requires 0.0 <= u < 1.0
    ensures min <= maxInclusive ==> min <= r <= maxInclusive
  {
    Range(min as real, (maxInclusive + 1) as real, u).Floor
  }

  class RNG {
    var seed: bv32

    /** `seed >>> 0`. */
    constructor(seed: int)
      ensures this.seed == ToUint32(seed)
    {
      this.seed := ToUint32(seed);
    }

    method Next() returns (u: real)
      modifies this
      ensures seed == Step(old(seed))
      ensures u == Draw(seed)
    {
      seed := Step(seed);
      var t := seed;
      t := MixMultiply(t);
      t := MixAdd(t);
      u := ToUnit(MixFinal(t));
    }

    method NextRange(min: real, max: real) returns (r: real)
      modifies this
      ensures seed == Step(old(seed))
      ensures r == Range(min, max, Draw(seed))
    {
      var u := Next();
      r := Range(min, max, u);
    }

    method NextInt(min: int, maxInclusive: int) returns (r: int)
      modifies this
      ensures seed == Step(old(seed))
      ensures r == IntRange(min, maxInclusive, Draw(seed))
    {
      var x := NextRange(min as real, (maxInclusive + 1) as real);
      r := x.Floor;
    }
  }

  /** `n` calls of `next()` on one generator return the stream `Draws` of
      its state and leave it `n` steps further. */
  method NextMany(r: RNG, n: nat) returns (xs: seq<real>)
    modifies r
    ensures xs == Draws(old(r.seed), n)
    ensures r.seed == Advance(old(r.seed), n)
  {
    ghost var start := r.seed;
    xs := [];
    for i := 0 to n
      invariant r.seed == Advance(start, i)
      invariant xs == Draws(start, i)
    {
      var x := r.Next();
      xs := xs + [x];
    }
  }

  /** Two generators built from the same seed return the same numbers, call
      for call: the stream `Draws` of the reduced seed. */
  method SameSeedSameDraws(seed: int, n: nat) returns (xs: seq<real>, ys: seq<real>)
    ensures xs == ys
    ensures xs == Draws(ToUint32(seed), n)
  {
    var a := new RNG(seed);
    var b := new RNG(seed);
    xs := NextMany(a, n);
    ys := NextMany(b, n);
  }
}
