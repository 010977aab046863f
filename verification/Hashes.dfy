/** The hashes of container/small_hash_map.h, by which a key finds its bucket. */
module Hashes {
  import opened Counting

  const MASK := 1023

  type Uint32 = n: nat | n < WORD
  type Uint64 = n: nat | n < 0x1_0000_0000_0000_0000

  // ----- Words -----

  function Not(x: Uint32): Uint32 { WORD - 1 - x }

  function Shl(x: nat, bits: nat): Uint32 { x * PowerOfTwo(bits) % WORD }

  function Shr(x: nat, bits: nat): (r: nat)
    ensures r <= x
    decreases bits
  {
    if bits == 0 then x else Shr(x / 2, bits - 1)
  }

  function Xor(x: nat, y: nat): nat {
    if x == 0 && y == 0 then 0 else (x + y) % 2 + 2 * Xor(x / 2, y / 2)
  }

  function PowerOfTwo(n: nat): (p: nat)
    ensures p > 0
  {
    if n == 0 then 1 else 2 * PowerOfTwo(n - 1)
  }

  lemma Doubled(q: nat, p: nat)
    ensures q * (2 * p) == 2 * (q * p) && (q + 1) * (2 * p) == 2 * ((q + 1) * p)
  {}

  /** Shifting right divides and leaves the remainder out. */
  lemma {:induction false} ShrDivides(x: nat, bits: nat)
    ensures Shr(x, bits) * PowerOfTwo(bits) <= x < (Shr(x, bits) + 1) * PowerOfTwo(bits)
    decreases bits
  {
    if bits > 0 {
      ShrDivides(x / 2, bits - 1);
      Doubled(Shr(x, bits), PowerOfTwo(bits - 1));
    }
  }

  lemma Digits(x: nat, bit: nat, rest: nat)
    requires x == bit + 2 * rest && bit < 2
    ensures x % 2 == bit && x / 2 == rest
  {}

  lemma XorUnfolds(x: nat, y: nat)
    ensures Xor(x, y) == (x + y) % 2 + 2 * Xor(x / 2, y / 2)
  {}

  lemma XorOfHalves(x: nat, y: nat)
    ensures Xor(x, y) % 2 == (x + y) % 2 && Xor(x, y) / 2 == Xor(x / 2, y / 2)
  {
    hide Xor;
    XorUnfolds(x, y);
    Digits(Xor(x, y), (x + y) % 2, Xor(x / 2, y / 2));
  }

  /** A bit is set in one word or the other, not in both. */
  lemma {:induction false} XorOfBits(x: nat, y: nat, i: nat)
    ensures Shr(Xor(x, y), i) % 2 == (Shr(x, i) + Shr(y, i)) % 2
    decreases i
  {
    hide Xor;
    XorOfHalves(x, y);
    if i > 0 { XorOfBits(x / 2, y / 2, i - 1); }
  }

  lemma {:induction false} XorFits(x: nat, y: nat, bits: nat)
    requires x < PowerOfTwo(bits) && y < PowerOfTwo(bits)
    ensures Xor(x, y) < PowerOfTwo(bits)
  {
    if bits > 0 { XorFits(x / 2, y / 2, bits - 1); }
  }

  lemma {:induction false} ShrOfHalf(x: nat, bits: nat)
    ensures Shr(x / 2, bits) == Shr(x, bits) / 2
    decreases bits
  {
    if bits > 0 { ShrOfHalf(x / 2, bits - 1); }
  }

  /** A word combined with itself shifted right is still that word's alone: the bits can be read
      off from the top. */
  lemma {:induction false} XorShrIsInjective(x: nat, y: nat, bits: nat)
    requires bits > 0 && Xor(x, Shr(x, bits)) == Xor(y, Shr(y, bits))
    ensures x == y
    decreases x + y
  {
    hide Xor;
    if x > 0 || y > 0 {
      HalvesAreXored(x, y, bits);
      XorShrIsInjective(x / 2, y / 2, bits);
      assert Shr(x, bits) == Shr(x / 2, bits - 1) && Shr(y, bits) == Shr(y / 2, bits - 1);
      LastBit(x, y, Shr(x, bits));
    }
  }

  lemma HalvesAreXored(x: nat, y: nat, bits: nat)
    requires Xor(x, Shr(x, bits)) == Xor(y, Shr(y, bits))
    ensures Xor(x / 2, Shr(x / 2, bits)) == Xor(y / 2, Shr(y / 2, bits))
    ensures (x + Shr(x, bits)) % 2 == (y + Shr(y, bits)) % 2
  {
    hide Xor, Shr;
    XorOfHalves(x, Shr(x, bits));
    XorOfHalves(y, Shr(y, bits));
    ShrOfHalf(x, bits);
    ShrOfHalf(y, bits);
  }

  lemma LastBit(x: nat, y: nat, z: nat)
    requires x / 2 == y / 2 && (x + z) % 2 == (y + z) % 2
    ensures x == y
  {}

  lemma PowersOfTwo()
    ensures PowerOfTwo(3) == 8 && PowerOfTwo(11) == 2048 && PowerOfTwo(15) == 32768 && PowerOfTwo(32) == WORD
    ensures PowerOfTwo(6) == 64 && PowerOfTwo(10) == 1024 && PowerOfTwo(16) == 65536
  {
    assert PowerOfTwo(8) == 256;
    assert PowerOfTwo(16) == 65536;
    assert PowerOfTwo(24) == 0x100_0000;
  }

  // ----- Unsigned keys -----

  function AddNot(k: Uint32, bits: nat): Uint32 { (k + Not(Shl(k, bits))) % WORD }

  function AddShl(k: Uint32, bits: nat): Uint32 { (k + Shl(k, bits)) % WORD }

  function XorShr(k: Uint32, bits: nat): Uint32 {
    PowersOfTwo();
    XorFits(k, Shr(k, bits), 32);
    Xor(k, Shr(k, bits))
  }

  function Mixed32(key: Uint32): Uint32 {
    XorShr(AddNot(XorShr(AddShl(XorShr(AddNot(key, 15), 10), 3), 6), 11), 16)
  }

  function Hash32(key: Uint32): (h: nat)
    ensures h < MASK
  {
    Mixed32(key) % MASK
  }

  lemma CutsTo(x: int, k: Uint32, t: int)
    requires x == k + WORD * t
    ensures x % WORD == k
  {}

  /** The steps that add multiply by odd numbers, which have inverses modulo 2^32. */
  function Undo15(w: Uint32): Uint32 { (w + 1) * 0x40008001 % WORD }

  function Undo11(w: Uint32): Uint32 { (w + 1) * 0x00400801 % WORD }

  function Undo3(w: Uint32): Uint32 { w * 0x38E38E39 % WORD }

  lemma AddNot15IsUndone(k: Uint32)
    ensures Undo15(AddNot(k, 15)) == k
  {
    PowersOfTwo();
    var over, carry := k * 32768 / WORD, (k + Not(Shl(k, 15))) / WORD;
    CutsTo((AddNot(k, 15) + 1) * 0x40008001, k, 0x40008001 * (1 + over - carry) - 8192 * k);
  }

  lemma AddNot11IsUndone(k: Uint32)
    ensures Undo11(AddNot(k, 11)) == k
  {
    PowersOfTwo();
    var over, carry := k * 2048 / WORD, (k + Not(Shl(k, 11))) / WORD;
    CutsTo((AddNot(k, 11) + 1) * 0x00400801, k, 0x00400801 * (1 + over - carry) - 2 * k);
  }

  lemma AddShl3IsUndone(k: Uint32)
    ensures Undo3(AddShl(k, 3)) == k
  {
    PowersOfTwo();
    var over, carry := k * 8 / WORD, (k + Shl(k, 3)) / WORD;
    CutsTo(AddShl(k, 3) * 0x38E38E39, k, 2 * k - 0x38E38E39 * (over + carry));
  }

  lemma XorShrKeepsApart(x: Uint32, y: Uint32, bits: nat)
    requires bits > 0 && XorShr(x, bits) == XorShr(y, bits)
    ensures x == y
  {
    XorShrIsInjective(x, y, bits);
  }

  /** The mixing loses nothing: two keys never have the same mixed word. */
  lemma MixingIsInjective(key: Uint32, other: Uint32)
    requires Mixed32(key) == Mixed32(other)
    ensures key == other
  {
    var a, b := AddNot(key, 15), AddNot(other, 15);
    var c, d := AddShl(XorShr(a, 10), 3), AddShl(XorShr(b, 10), 3);
    var e, f := AddNot(XorShr(c, 6), 11), AddNot(XorShr(d, 6), 11);
    hide AddNot, AddShl, XorShr, Undo15, Undo11, Undo3;
    XorShrKeepsApart(e, f, 16);
    AddNot11IsUndone(XorShr(c, 6));
    AddNot11IsUndone(XorShr(d, 6));
    XorShrKeepsApart(c, d, 6);
    AddShl3IsUndone(XorShr(a, 10));
    AddShl3IsUndone(XorShr(b, 10));
    XorShrKeepsApart(a, b, 10);
    AddNot15IsUndone(key);
    AddNot15IsUndone(other);
  }

  lemma ShrIsQuotient(k: nat)
    ensures Shr(k, 10) == k / 1024 && Shr(k, 6) == k / 64 && Shr(k, 16) == k / 65536
  {
    hide Shr;
    PowersOfTwo();
    ShrDivides(k, 10);
    ShrDivides(k, 6);
    ShrDivides(k, 16);
  }

  lemma AddsAreProducts(k: Uint32)
    ensures AddNot(k, 15) == (0xFFFF8001 * k - 1) % WORD && AddNot(k, 11) == (0xFFFFF801 * k - 1) % WORD
    ensures AddShl(k, 3) == 9 * k % WORD
  {
    PowersOfTwo();
    CutsTo(0xFFFF8001 * k - 1, AddNot(k, 15), k - 1 - k * 32768 / WORD + (k + Not(Shl(k, 15))) / WORD);
    CutsTo(0xFFFFF801 * k - 1, AddNot(k, 11), k - 1 - k * 2048 / WORD + (k + Not(Shl(k, 11))) / WORD);
    CutsTo(9 * k, AddShl(k, 3), k * 8 / WORD + (k + Shl(k, 3)) / WORD);
  }

  /** The mixed word in arithmetic modulo 2^32: three products, and between them exclusive ors
      with quotients. */
  lemma MixedByProducts(key: Uint32, a: Uint32, b: Uint32, c: Uint32)
    requires a == (0xFFFF8001 * key - 1) % WORD && b == 9 * Xor(a, a / 1024) % WORD
    requires c == (0xFFFFF801 * Xor(b, b / 64) - 1) % WORD
    ensures Mixed32(key) == Xor(c, c / 65536)
  {
    hide AddNot, AddShl, Xor, Shr;
    AddsAreProducts(key);
    ShrIsQuotient(a);
    AddsAreProducts(XorShr(a, 10));
    ShrIsQuotient(b);
    AddsAreProducts(XorShr(b, 6));
    ShrIsQuotient(c);
  }

  function Hash64(key: Uint64): (h: nat)
    ensures h < MASK
  {
    key % MASK
  }

  /** Keys below 1023 are their own hash, and keys hash alike exactly when they are a multiple
      of 1023 apart. */
  lemma Hash64Is(key: Uint64, other: Uint64)
    ensures key < 1023 ==> Hash64(key) == key
    ensures Hash64(key) == Hash64(other) <==> (key - other) % 1023 == 0
  {}

  // ----- Signed keys -----

  /** The remainder has the sign of the key and is then read as an unsigned integer. */
  function HashSigned64(key: int): nat {
    if key >= 0 then key % MASK else (WORD - -key % MASK) % WORD
  }

  /** Only for these signed keys is the hash the index of a bucket: every other negative key is
      sent more than four thousand million places past the last bucket. */
  lemma SignedHashIsAnIndexIff(key: int)
    ensures HashSigned64(key) < 1023 <==> key >= 0 || key % 1023 == 0
    ensures HashSigned64(key) >= 1023 ==> HashSigned64(key) > 4_000_000_000
  {}

  // ----- Strings -----

  /** The codes of a string, as the unsigned integers that are added. */
  function HashText(codes: seq<nat>): (h: nat)
    ensures h < WORD
  {
    if codes == [] then 5831
    else (34 * HashText(codes[..|codes| - 1]) + codes[|codes| - 1]) % WORD
  }

  function HashString(codes: seq<nat>): (h: nat)
    ensures h < MASK
  {
    HashText(codes) % MASK
  }

  /** hash += (hash << 5) + hash + code, in 32 bits. */
  method HashOf(codes: seq<nat>) returns (h: nat)
    ensures h == HashString(codes) == (5831 * Power(|codes|) + Weighted(codes)) % WORD % 1023
  {
    var hash := 5831;
    var i := 0;
    while i < |codes|
      invariant i <= |codes| && hash == HashText(codes[..i])
    {
      assert codes[..i + 1][..i] == codes[..i];
      Shifted(hash, codes[i]);
      hash := (hash + ((hash * 32) % WORD + hash + codes[i]) % WORD) % WORD;
      i := i + 1;
    }
    assert codes[..|codes|] == codes;
    HashIsWeightedSum(codes);
    h := hash % MASK;
  }

  lemma Shifted(hash: nat, code: nat)
    ensures (hash + ((hash * 32) % WORD + hash + code) % WORD) % WORD == (34 * hash + code) % WORD
  {}

  function Power(n: nat): nat {
    if n == 0 then 1 else 34 * Power(n - 1)
  }

  /** The sum of the codes, each times 34 to the power of how many codes come after it. */
  function Weighted(codes: seq<nat>): nat {
    if codes == [] then 0 else codes[0] * Power(|codes| - 1) + Weighted(codes[1..])
  }

  lemma {:induction false} WeightedSnoc(codes: seq<nat>)
    requires codes != []
    ensures Weighted(codes) == 34 * Weighted(codes[..|codes| - 1]) + codes[|codes| - 1]
    decreases |codes|
  {
    if |codes| > 1 {
      var front, last := codes[..|codes| - 1], |codes| - 1;
      WeightedSnoc(codes[1..]);
      assert codes[1..][..last - 1] == front[1..];
      Times34(codes[0], Power(last - 1));
    } else {
      assert codes[1..] == [] && codes[..0] == [] && Power(0) == 1;
    }
  }

  lemma Times34(code: nat, power: nat)
    ensures code * (34 * power) == 34 * (code * power)
  {}

  /** The hash of a string is 5831 times 34 to the power of its length plus its weighted sum, cut
      to 32 bits at the end as it is at every step. */
  lemma {:induction false} HashIsWeightedSum(codes: seq<nat>)
    ensures HashText(codes) == (5831 * Power(|codes|) + Weighted(codes)) % WORD
    decreases |codes|
  {
    if codes != [] {
      var front, code := codes[..|codes| - 1], codes[|codes| - 1];
      HashIsWeightedSum(front);
      WeightedSnoc(codes);
      CutEarly(5831 * Power(|front|) + Weighted(front), code);
    }
  }

  lemma CutEarly(p: nat, code: nat)
    ensures (34 * (p % WORD) + code) % WORD == (34 * p + code) % WORD
  {}

}
